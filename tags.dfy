/**
 * Tag parsing for the place form (`parseTags` in src/actions/place-actions.ts)
 * and the form's own serialisation of a tag list (src/components/Place/Form.tsx).
 * The raw field is either a JSON array or a comma-separated list; the result
 * is trimmed, de-duplicated in order of first occurrence and free of empty
 * entries, or absent when the field is missing or blank.
 */
module Tags {
  import opened Common
  import opened JsText

  /**
   * What `JSON.parse` makes of a string, as far as tag parsing looks at it:
   * it throws, it yields an array (each element already passed through
   * `String(v)`), or it yields some other JSON value.
   */
  datatype JsonValue = ParseError | JsonArray(items: seq<string>) | JsonOther

  /**
   * The one thing the model assumes of `JSON.parse`: on text with no leading
   * or trailing whitespace, it can only yield an array when the text starts with `[`.
   */
  ghost predicate ArraysStartWithBracket(parse: string -> JsonValue) {
    forall s :: Trimmed(s) && parse(s).JsonArray? ==> |s| > 0 && s[0] == '['
  }

  predicate NoDuplicates<T(==)>(s: seq<T>) {
    forall i, j :: 0 <= i < j < |s| ==> s[i] != s[j]
  }

  /** `Array.from(new Set(s))`: a set iterates in insertion order. */
  function Dedup(s: seq<string>): (r: seq<string>)
    ensures NoDuplicates(r)
    ensures forall x :: x in r <==> x in s
    decreases |s|
  {
    if |s| == 0 then []
    else
      var r := Dedup(s[..|s| - 1]);
      assert forall x :: x in s <==> x in s[..|s| - 1] || x == s[|s| - 1] by {
        assert s == s[..|s| - 1] + [s[|s| - 1]];
      }
      if s[|s| - 1] in r then r else r + [s[|s| - 1]]
  }

  /** `.filter(Boolean)` on strings: drops the empty ones. */
  function RemoveEmpty(s: seq<string>): (r: seq<string>)
    ensures forall x :: x in r <==> x in s && x != ""
    decreases |s|
  {
    if |s| == 0 then []
    else
      var r := RemoveEmpty(s[..|s| - 1]);
      assert forall x :: x in s <==> x in s[..|s| - 1] || x == s[|s| - 1] by {
        assert s == s[..|s| - 1] + [s[|s| - 1]];
      }
      if s[|s| - 1] == "" then r else r + [s[|s| - 1]]
  }

  /** `.map((v) => v.trim())`. */
  function TrimAll(s: seq<string>): (r: seq<string>)
    ensures |r| == |s|
    ensures forall i :: 0 <= i < |s| ==> r[i] == Trim(s[i])
    ensures forall i :: 0 <= i < |r| ==> Trimmed(r[i])
  {
    var r := seq(|s|, i requires 0 <= i < |s| => Trim(s[i]));
    assert forall i :: 0 <= i < |r| ==> Trimmed(r[i]) by {
      forall i | 0 <= i < |r| ensures Trimmed(r[i]) {
        TrimSpec(s[i]);
      }
    }
    r
  }

  /** The untrimmed pieces: the array's elements when `s` parses as a JSON array, else the comma-separated parts. */
  function TagSource(s: string, parse: string -> JsonValue): seq<string> {
    match parse(s)
    case JsonArray(items) => items
    case _ => Split(s, ',')
  }

  /** `parseTags(raw)`. `raw == None` is a missing field. */
  function ParseTags(raw: Option<string>, parse: string -> JsonValue): (r: Option<seq<string>>)
    ensures r.None? <==> raw.None? || AllWhitespace(raw.value)
    ensures r.Some? ==> NoDuplicates(r.value)
    ensures r.Some? ==> forall i :: 0 <= i < |r.value| ==> Trimmed(r.value[i]) && r.value[i] != ""
  {
    if raw.None? || raw.value == "" then None
    else
      var s := Trim(raw.value);
      TrimSpec(raw.value);
      if s == "" then None
      else
        var pieces := TrimAll(TagSource(s, parse));
        var r := Clean(pieces);
        assert forall i :: 0 <= i < |r| ==> Trimmed(r[i]) && r[i] != "" by {
          forall i | 0 <= i < |r| ensures Trimmed(r[i]) && r[i] != "" {
            assert r[i] in pieces;
          }
        }
        Some(r)
  }

  /** `Array.from(new Set(pieces)).filter(Boolean)`. */
  function Clean(pieces: seq<string>): (r: seq<string>)
    ensures NoDuplicates(r)
    ensures forall x :: x in r <==> x in pieces && x != ""
  {
    RemoveEmptyKeepsDistinct(Dedup(pieces));
    RemoveEmpty(Dedup(pieces))
  }

  /** The position of the first occurrence of `x` in `s`. */
  function FirstIndex<T(==)>(s: seq<T>, x: T): (i: nat)
    requires x in s
    ensures i < |s| && s[i] == x
    ensures forall j :: 0 <= j < i ==> s[j] != x
  {
    if s[0] == x then 0 else 1 + FirstIndex(s[1..], x)
  }

  /** `r` lists elements of `s` in the order in which they first occur in `s`. */
  ghost predicate InFirstOccurrenceOrder<T>(r: seq<T>, s: seq<T>) {
    && (forall i :: 0 <= i < |r| ==> r[i] in s)
    && (forall i, j :: 0 <= i < j < |r| && r[i] in s && r[j] in s ==> FirstIndex(s, r[i]) < FirstIndex(s, r[j]))
  }

  lemma FirstIndexAppend<T>(s: seq<T>, y: T, x: T)
    requires x in s
    ensures FirstIndex(s + [y], x) == FirstIndex(s, x)
  {
    var i := FirstIndex(s, x);
    assert (s + [y])[i] == x;
  }

  lemma {:induction false} DedupOrder(s: seq<string>)
    ensures InFirstOccurrenceOrder(Dedup(s), s)
    decreases |s|
  {
    if |s| > 0 {
      var p, y := s[..|s| - 1], s[|s| - 1];
      assert s == p + [y];
      DedupOrder(p);
      var r := Dedup(p);
      forall x | x in p ensures FirstIndex(s, x) == FirstIndex(p, x) {
        FirstIndexAppend(p, y, x);
      }
      if y !in r {
        assert y !in p;
        assert FirstIndex(s, y) == |p|;
      }
    }
  }

  lemma {:induction false} RemoveEmptyOrder(r: seq<string>, s: seq<string>)
    requires InFirstOccurrenceOrder(r, s)
    ensures InFirstOccurrenceOrder(RemoveEmpty(r), s)
    decreases |r|
  {
    if |r| > 0 {
      var p, y := r[..|r| - 1], r[|r| - 1];
      assert InFirstOccurrenceOrder(p, s);
      RemoveEmptyOrder(p, s);
      if y != "" {
        var q := RemoveEmpty(p);
        forall i | 0 <= i < |q| ensures FirstIndex(s, q[i]) < FirstIndex(s, y) {
          assert q[i] in p;
          var k :| 0 <= k < |p| && p[k] == q[i];
          assert r[k] == q[i];
        }
      }
    }
  }

  lemma {:induction false} RemoveEmptyKeepsDistinct(r: seq<string>)
    requires NoDuplicates(r)
    ensures NoDuplicates(RemoveEmpty(r))
    decreases |r|
  {
    if |r| > 0 {
      var p := r[..|r| - 1];
      RemoveEmptyKeepsDistinct(p);
      assert r[|r| - 1] !in p;
    }
  }

  /**
   * Whichever path it takes, `parseTags` returns exactly the non-empty trimmed
   * pieces of the trimmed input, each once, in order of first occurrence.
   */
  lemma ParseTagsCharacterised(raw: string, parse: string -> JsonValue)
    requires !AllWhitespace(raw)
    ensures var pieces := TrimAll(TagSource(Trim(raw), parse));
            var r := ParseTags(Some(raw), parse);
            && r.Some?
            && (forall x :: x in r.value <==> x in pieces && x != "")
            && InFirstOccurrenceOrder(r.value, pieces)
  {
    var pieces := TrimAll(TagSource(Trim(raw), parse));
    DedupOrder(pieces);
    RemoveEmptyOrder(Dedup(pieces), pieces);
    ParseTagsUnfold(raw, parse);
  }

  /** The form pre-fills the tag field with `tags.join(', ')`. */
  function FormTags(tags: seq<string>): string {
    Join(tags, ", ")
  }

  /** Tags the form can write out and read back unchanged. */
  predicate FormSafe(tags: seq<string>) {
    && NoDuplicates(tags)
    && (forall i :: 0 <= i < |tags| ==> tags[i] != "" && Trimmed(tags[i]) && ',' !in tags[i])
    && (|tags| > 0 ==> tags[0][0] != '[')
  }

  function SpaceAll(s: seq<string>): (r: seq<string>)
    ensures |r| == |s|
    ensures forall i :: 0 <= i < |s| ==> r[i] == " " + s[i]
  {
    seq(|s|, i requires 0 <= i < |s| => " " + s[i])
  }

  lemma {:induction false} SplitFormTags(ts: seq<string>)
    requires |ts| >= 1
    requires forall i :: 0 <= i < |ts| ==> ',' !in ts[i]
    ensures Split(FormTags(ts), ',') == [ts[0]] + SpaceAll(ts[1..])
    decreases |ts|
  {
    if |ts| == 1 {
      SplitFree(ts[0], ',');
    } else {
      var x := FormTags(ts[1..]);
      SplitFormTags(ts[1..]);
      assert FormTags(ts) == ts[0] + [','] + (" " + x);
      SplitAtFirst(ts[0], ',', " " + x);
      assert (" " + x)[1..] == x;
      assert Split(" " + x, ',') == SpaceAll(ts[1..]);
    }
  }

  lemma {:induction false} FormTagsEnds(ts: seq<string>)
    requires |ts| >= 1 && forall i :: 0 <= i < |ts| ==> ts[i] != ""
    ensures var j := FormTags(ts); |j| > 0 && j[0] == ts[0][0] && j[|j| - 1] == ts[|ts| - 1][|ts[|ts| - 1]| - 1]
    decreases |ts|
  {
    if |ts| > 1 {
      FormTagsEnds(ts[1..]);
    }
  }

  lemma {:induction false} DedupDistinct(s: seq<string>)
    requires NoDuplicates(s)
    ensures Dedup(s) == s
    decreases |s|
  {
    if |s| > 0 {
      DedupDistinct(s[..|s| - 1]);
      assert s[|s| - 1] !in s[..|s| - 1];
      assert s[..|s| - 1] + [s[|s| - 1]] == s;
    }
  }

  lemma {:induction false} RemoveEmptyNonEmpty(s: seq<string>)
    requires forall i :: 0 <= i < |s| ==> s[i] != ""
    ensures RemoveEmpty(s) == s
    decreases |s|
  {
    if |s| > 0 {
      RemoveEmptyNonEmpty(s[..|s| - 1]);
      assert s[..|s| - 1] + [s[|s| - 1]] == s;
    }
  }

  /**
   * The form's serialisation and `parseTags` round-trip: a list the form can
   * write out comes back unchanged, and the empty list comes back as absent.
   */
  lemma FormTagsRoundTrip(tags: seq<string>, parse: string -> JsonValue)
    requires ArraysStartWithBracket(parse)
    requires FormSafe(tags)
    ensures ParseTags(Some(FormTags(tags)), parse) == if tags == [] then None else Some(tags)
  {
    if tags != [] {
      var j := FormTags(tags);
      FormTagsEnds(tags);
      TrimSpec(j);
      assert Trim(j) == j;
      assert !parse(j).JsonArray?;
      assert TagSource(j, parse) == Split(j, ',');
      SplitFormTags(tags);
      TrimPieces(tags);
      DedupDistinct(tags);
      RemoveEmptyNonEmpty(tags);
      assert Clean(tags) == tags;
      ParseTagsUnfold(j, parse);
    }
  }

  lemma TrimPieces(tags: seq<string>)
    requires |tags| >= 1
    requires forall i :: 0 <= i < |tags| ==> Trimmed(tags[i])
    ensures TrimAll([tags[0]] + SpaceAll(tags[1..])) == tags
  {
    forall i | 0 <= i < |tags| ensures TrimAll([tags[0]] + SpaceAll(tags[1..]))[i] == tags[i] {
      TrimPiece(tags, i);
    }
  }

  lemma TrimPiece(tags: seq<string>, i: nat)
    requires i < |tags|
    requires forall i :: 0 <= i < |tags| ==> Trimmed(tags[i])
    ensures TrimAll([tags[0]] + SpaceAll(tags[1..]))[i] == tags[i]
  {
    if i == 0 {
      TrimSpec(tags[0]);
    } else {
      assert ([tags[0]] + SpaceAll(tags[1..]))[i] == " " + tags[i];
      assert AllWhitespace(" ");
      TrimAfterWhitespace(" ", tags[i]);
    }
  }

  lemma ParseTagsUnfold(raw: string, parse: string -> JsonValue)
    requires !AllWhitespace(raw)
    ensures ParseTags(Some(raw), parse) == Some(Clean(TrimAll(TagSource(Trim(raw), parse))))
  {
  }
}
