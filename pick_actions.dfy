/**
 * The random pick actions (src/actions/pick-actions.ts): `pickPlaceAction`
 * picks one place near the visitor or within a region and category, and
 * `pickByCategoryAction` picks one place of a category. The two database
 * procedures and the detail fetch are the `PickBackend` oracles; each action
 * also returns the log of the calls it issued.
 *
 * The procedures pick one matching row at random. Their filters are stated as
 * predicates (`RegionalAccepts`, `NearbyAcceptsAsWritten`), and the pick itself
 * is the nondeterministic `PickOne`, whose only promise is to return one
 * matching row when there is one. Nothing is claimed about the distribution.
 */
module PickActions {
  import opened Common
  import opened JsText

  // ---------------------------------------------------------------------------
  // Requests, replies and the call log

  /** The pick request; every field may be missing. */
  datatype PickPayload = PickPayload(
    region: Option<string>,
    category: Option<string>,
    lat: Option<JsNumber>,
    lng: Option<JsNumber>,
    radius: Option<JsNumber>)

  /** One row of a procedure's result; only its `id` is read. */
  datatype IdRow = IdRow(id: Option<int>)

  /** A procedure call: it throws, reports an error, or returns its rows (possibly `null`). */
  datatype RpcReply = RpcThrew(message: string) | RpcFailed(message: string) | RpcRows(data: Option<seq<IdRow>>)

  /** The detail fetch by id: it throws, reports an error, or returns at most one row. */
  datatype FetchReply = FetchThrew(message: string) | FetchFailed(message: string) | Fetched(place: Option<PlaceRecord>)

  datatype PickBackend = PickBackend(
    nearby: (JsNumber, JsNumber, JsNumber, string) -> RpcReply,
    random: (string, string) -> RpcReply,
    fetch: int -> FetchReply)

  datatype PickCall =
    | NearbyRpc(lat: JsNumber, lng: JsNumber, radius: JsNumber, category: string)
    | RandomRpc(region: string, category: string)
    | FetchById(id: int)

  datatype Run<+T> = Run(result: T, calls: seq<PickCall>)

  /** `x ?? 2000` for the radius in metres. */
  const DefaultRadius: JsNumber := Finite(2000.0)

  /** A coordinate in a truthy position: present, not zero and not NaN. */
  predicate Given(x: Option<JsNumber>) {
    x.Some? && x.value.Truthy()
  }

  /** `data?.[0]?.id`, when it is truthy. */
  function PickedId(data: Option<seq<IdRow>>): (r: Option<int>)
    ensures r.Some? <==> data.Some? && |data.value| > 0 && data.value[0].id.Some? && data.value[0].id.value != 0
    ensures r.Some? ==> r.value == data.value[0].id.value
  {
    if data.Some? && |data.value| > 0 && data.value[0].id.Some? && data.value[0].id.value != 0
    then Some(data.value[0].id.value)
    else None
  }

  // ---------------------------------------------------------------------------
  // Decimal ids in the redirect

  function DigitChar(d: int): char
    requires 0 <= d < 10
  {
    "0123456789"[d]
  }

  /** The decimal digits of `n`, as `String(n)` prints them. */
  function NatToString(n: nat): (s: string)
    ensures |s| > 0
    ensures forall i :: 0 <= i < |s| ==> '0' <= s[i] <= '9'
    decreases n
  {
    if n < 10 then [DigitChar(n)] else NatToString(n / 10) + [DigitChar(n % 10)]
  }

  /** `String(n)` for an integer. */
  function IntToString(n: int): string {
    if n < 0 then "-" + NatToString(-n) else NatToString(n)
  }

  /** The value of a string of decimal digits. */
  function DigitsValue(s: string): nat
    requires forall i :: 0 <= i < |s| ==> '0' <= s[i] <= '9'
    decreases |s|
  {
    if |s| == 0 then 0 else DigitsValue(s[..|s| - 1]) * 10 + (s[|s| - 1] as int - '0' as int)
  }

  /** Reading the digits back gives the number: the redirect names exactly one id. */
  lemma {:induction false} NatToStringRoundTrip(n: nat)
    ensures DigitsValue(NatToString(n)) == n
    decreases n
  {
    if n >= 10 {
      NatToStringRoundTrip(n / 10);
      var s := NatToString(n);
      assert s[..|s| - 1] == NatToString(n / 10);
    }
  }

  /** A minus sign leads exactly the negative numbers; the digits follow it. */
  lemma IntToStringSign(n: int)
    ensures IntToString(n)[0] == '-' <==> n < 0
    ensures n < 0 ==> IntToString(n)[1..] == NatToString(-n)
    ensures n >= 0 ==> IntToString(n) == NatToString(n)
  {
    if n >= 0 {
      assert '0' <= NatToString(n)[0] <= '9';
    }
  }

  /** Distinct ids give distinct redirects. */
  lemma IntToStringInjective(a: int, b: int)
    requires IntToString(a) == IntToString(b)
    ensures a == b
  {
    IntToStringSign(a);
    IntToStringSign(b);
    var da := if a < 0 then -a else a;
    var db := if b < 0 then -b else b;
    assert NatToString(da) == NatToString(db);
    NatToStringRoundTrip(da);
    NatToStringRoundTrip(db);
  }

  // ---------------------------------------------------------------------------
  // The actions

  /**
   * The steps after the procedure call, shared by both actions: an error or an
   * exception from the procedure, no truthy id, then the detail fetch. An
   * exception is passed on as `Thrown`; `redirect` says whether a success carries
   * `/result/<id>`.
   */
  function AfterPick(reply: RpcReply, call: PickCall, notFound: Detail, redirect: bool, env: PickBackend)
    : (run: Run<Outcome<PlaceRecord>>)
    ensures 1 <= |run.calls| <= 2 && run.calls[0] == call
    ensures reply.RpcThrew? ==> run == Run(Thrown(reply.message), [call])
    ensures reply.RpcFailed? ==> run == Run(Returned(Failure(InternalServerError, Message(reply.message))), [call])
    ensures reply.RpcRows? && PickedId(reply.data).None? ==> run == Run(Returned(Failure(NotFound, notFound)), [call])
    ensures reply.RpcRows? && PickedId(reply.data).Some? ==>
              var id := PickedId(reply.data).value;
              && run.calls == [call, FetchById(id)]
              && run.result == match env.fetch(id)
                 case FetchThrew(m) => Thrown(m)
                 case FetchFailed(m) => Returned(Failure(InternalServerError, Message(m)))
                 case Fetched(None) => Returned(Failure(InternalServerError, NoDetail))
                 case Fetched(Some(p)) => Returned(Success(p, if redirect then Some("/result/" + IntToString(id)) else None))
  {
    match reply
    case RpcThrew(m) => Run(Thrown(m), [call])
    case RpcFailed(m) => Run(Returned(Failure(InternalServerError, Message(m))), [call])
    case RpcRows(data) =>
      match PickedId(data)
      case None => Run(Returned(Failure(NotFound, notFound)), [call])
      case Some(id) =>
        var calls := [call, FetchById(id)];
        match env.fetch(id)
        case FetchThrew(m) => Run(Thrown(m), calls)
        case FetchFailed(m) => Run(Returned(Failure(InternalServerError, Message(m))), calls)
        case Fetched(None) => Run(Returned(Failure(InternalServerError, NoDetail)), calls)
        case Fetched(Some(p)) => Run(Returned(Success(p, if redirect then Some("/result/" + IntToString(id)) else None)), calls)
  }

  /** The `catch` of `pickPlaceAction`: an exception becomes an internal error carrying its message. */
  function Caught(o: Outcome<PlaceRecord>): ActionResult<PlaceRecord> {
    match o
    case Returned(r) => r
    case Thrown(m) => Failure(InternalServerError, Message(m))
  }

  /** The procedure call `pickPlaceAction` makes for a payload, if any. */
  function PickCallFor(payload: PickPayload): Option<PickCall> {
    var region := payload.region.GetOr("");
    var category := payload.category.GetOr("");
    if region == "nearby" then
      if Given(payload.lat) && Given(payload.lng)
      then Some(NearbyRpc(payload.lat.value, payload.lng.value, payload.radius.GetOr(DefaultRadius), category))
      else None
    else Some(RandomRpc(region, category))
  }

  /** `pickPlaceAction(payload)`. */
  function PickPlace(payload: PickPayload, env: PickBackend): (run: Run<ActionResult<PlaceRecord>>)
    ensures PickCallFor(payload).None? <==> run == Run(Failure(BadRequest, NoDetail), [])
    ensures PickCallFor(payload).Some? ==> |run.calls| > 0 && run.calls[0] == PickCallFor(payload).value
    ensures run.result.Failure? && run.result.details.FilterEcho? ==>
              run.result == Failure(NotFound, FilterEcho(payload.region.GetOr(""), payload.category.GetOr("")))
  {
    var region := payload.region.GetOr("");
    var category := payload.category.GetOr("");
    if region == "nearby" then
      if !Given(payload.lat) || !Given(payload.lng) then Run(Failure(BadRequest, NoDetail), [])
      else
        var radius := payload.radius.GetOr(DefaultRadius);
        var call := NearbyRpc(payload.lat.value, payload.lng.value, radius, category);
        var rest := AfterPick(env.nearby(payload.lat.value, payload.lng.value, radius, category), call, NoDetail, true, env);
        Run(Caught(rest.result), rest.calls)
    else
      var call := RandomRpc(region, category);
      var rest := AfterPick(env.random(region, category), call, FilterEcho(region, category), true, env);
      Run(Caught(rest.result), rest.calls)
  }

  /** `pickByCategoryAction(category)`: no `try`, so exceptions escape, and the region filter is always `''`. */
  function PickByCategory(category: string, env: PickBackend): (run: Run<Outcome<PlaceRecord>>)
    ensures |run.calls| > 0 && run.calls[0] == RandomRpc("", category)
    ensures run.result.Returned? && run.result.result.Success? ==> run.result.result.redirect.None?
    ensures run.result == Returned(Failure(NotFound, CategoryEcho(category))) <==>
              env.random("", category).RpcRows? && PickedId(env.random("", category).data).None?
  {
    AfterPick(env.random("", category), RandomRpc("", category), CategoryEcho(category), false, env)
  }

  /** The error cases of a pick: an internal error, not a miss, once an id was picked. */
  lemma PickPlaceCases(payload: PickPayload, env: PickBackend)
    requires PickCallFor(payload).Some?
    ensures var run := PickPlace(payload, env);
            var call := PickCallFor(payload).value;
            var reply := if call.NearbyRpc? then env.nearby(call.lat, call.lng, call.radius, call.category)
                         else env.random(call.region, call.category);
            && (reply.RpcThrew? || reply.RpcFailed? ==>
                  run == Run(Failure(InternalServerError, Message(reply.message)), [call]))
            && (reply.RpcRows? && PickedId(reply.data).None? ==>
                  run == Run(Failure(NotFound, if call.NearbyRpc? then NoDetail else FilterEcho(call.region, call.category)), [call]))
            && (reply.RpcRows? && PickedId(reply.data).Some? ==>
                  var id := PickedId(reply.data).value;
                  && run.calls == [call, FetchById(id)]
                  && (run.result.Success? <==> env.fetch(id).Fetched? && env.fetch(id).place.Some?)
                  && (run.result.Failure? ==> run.result.kind == InternalServerError)
                  && (run.result.Success? ==>
                        run.result == Success(env.fetch(id).place.value, Some("/result/" + IntToString(id)))))
  {
    var call := PickCallFor(payload).value;
    var reply := if call.NearbyRpc? then env.nearby(call.lat, call.lng, call.radius, call.category)
                 else env.random(call.region, call.category);
    var notFound := if call.NearbyRpc? then NoDetail else FilterEcho(call.region, call.category);
    var rest := AfterPick(reply, call, notFound, true, env);
    assert PickPlace(payload, env) == Run(Caught(rest.result), rest.calls);
  }

  // ---------------------------------------------------------------------------
  // The procedures' filters and the random pick

  /**
   * One filter of `pick_one_random`: no filter when the parameter is null, empty
   * or `all` in any case; otherwise the column must equal it ignoring case.
   */
  predicate FilterAccepts(filter: Option<string>, column: string) {
    filter.None? || filter.value == "" || Lower(filter.value) == "all" || Lower(column) == Lower(filter.value)
  }

  /** The `WHERE` clause of `pick_one_random(in_region, in_category)`. */
  predicate RegionalAccepts(inRegion: Option<string>, inCategory: Option<string>, p: PlaceRecord) {
    FilterAccepts(inRegion, p.region) && FilterAccepts(inCategory, p.category)
  }

  /**
   * What a picking procedure promises: no error, at most one row, none exactly
   * when no stored place is accepted, and otherwise the id of an accepted place.
   */
  ghost predicate PicksFrom(places: seq<PlaceRecord>, accept: PlaceRecord -> bool, reply: RpcReply) {
    && reply.RpcRows?
    && reply.data.Some?
    && |reply.data.value| <= 1
    && (|reply.data.value| == 0 <==> forall i :: 0 <= i < |places| ==> !accept(places[i]))
    && (|reply.data.value| == 1 ==>
          exists i :: 0 <= i < |places| && accept(places[i]) && reply.data.value[0] == IdRow(Some(places[i].id)))
  }

  /** `... ORDER BY random() LIMIT 1`: some accepted place, chosen arbitrarily. */
  method PickOne(places: seq<PlaceRecord>, accept: PlaceRecord -> bool) returns (reply: RpcReply)
    ensures PicksFrom(places, accept, reply)
  {
    if i :| 0 <= i < |places| && accept(places[i]) {
      reply := RpcRows(Some([IdRow(Some(places[i].id))]));
    } else {
      reply := RpcRows(Some([]));
    }
  }

  /** The detail fetch returns the stored row with the requested id. */
  ghost predicate FetchesStored(places: seq<PlaceRecord>, env: PickBackend) {
    forall i :: 0 <= i < |places| ==> env.fetch(places[i].id) == Fetched(Some(places[i]))
  }

  /** Stored ids are never zero, so a picked place is never mistaken for a miss. */
  ghost predicate TruthyIds(places: seq<PlaceRecord>) {
    forall i :: 0 <= i < |places| ==> places[i].id != 0
  }

  /** Under the procedure's contract, the place a regional pick returns passes both filters and is redirected to by its id. */
  lemma RegionalPickMatches(payload: PickPayload, env: PickBackend, places: seq<PlaceRecord>)
    requires payload.region.GetOr("") != "nearby"
    requires PicksFrom(places, p => RegionalAccepts(Some(payload.region.GetOr("")), Some(payload.category.GetOr("")), p),
                       env.random(payload.region.GetOr(""), payload.category.GetOr("")))
    requires FetchesStored(places, env)
    ensures var result := PickPlace(payload, env).result;
            result.Success? ==>
              && result.data in places
              && RegionalAccepts(Some(payload.region.GetOr("")), Some(payload.category.GetOr("")), result.data)
              && result.redirect == Some("/result/" + IntToString(result.data.id))
  {
    var region, category := payload.region.GetOr(""), payload.category.GetOr("");
    var data := env.random(region, category).data;
    PickPlaceCases(payload, env);
    if |data.value| == 1 {
      var i :| 0 <= i < |places| && RegionalAccepts(Some(region), Some(category), places[i])
               && data.value[0] == IdRow(Some(places[i].id));
      assert env.fetch(places[i].id) == Fetched(Some(places[i]));
    }
  }

  /** When no stored place passes the filters, a regional pick is a miss that echoes the filters. */
  lemma RegionalPickMisses(payload: PickPayload, env: PickBackend, places: seq<PlaceRecord>)
    requires payload.region.GetOr("") != "nearby"
    requires PicksFrom(places, p => RegionalAccepts(Some(payload.region.GetOr("")), Some(payload.category.GetOr("")), p),
                       env.random(payload.region.GetOr(""), payload.category.GetOr("")))
    requires TruthyIds(places)
    ensures var result := PickPlace(payload, env).result;
            result == Failure(NotFound, FilterEcho(payload.region.GetOr(""), payload.category.GetOr(""))) <==>
              forall i :: 0 <= i < |places| ==>
                !RegionalAccepts(Some(payload.region.GetOr("")), Some(payload.category.GetOr("")), places[i])
  {
    var region, category := payload.region.GetOr(""), payload.category.GetOr("");
    var data := env.random(region, category).data;
    PickPlaceCases(payload, env);
    if |data.value| == 1 {
      var i :| 0 <= i < |places| && RegionalAccepts(Some(region), Some(category), places[i])
               && data.value[0] == IdRow(Some(places[i].id));
      assert PickedId(data).Some?;
    }
  }

  /** `all`, in any case, and the empty string switch a filter off. */
  lemma AllMeansNoFilter(filter: string, column: string)
    requires filter == "" || Lower(filter) == "all"
    ensures FilterAccepts(Some(filter), column)
  {
  }

  /** A category-only pick returns a place of that category, ignoring case, unless the category is `all` or empty. */
  lemma CategoryPickMatches(category: string, env: PickBackend, places: seq<PlaceRecord>)
    requires PicksFrom(places, p => RegionalAccepts(Some(""), Some(category), p), env.random("", category))
    requires FetchesStored(places, env)
    ensures var out := PickByCategory(category, env).result;
            out.Returned? && out.result.Success? ==>
              out.result.data in places && FilterAccepts(Some(category), out.result.data.category)
  {
    var data := env.random("", category).data;
    if |data.value| == 1 {
      var i :| 0 <= i < |places| && RegionalAccepts(Some(""), Some(category), places[i])
               && data.value[0] == IdRow(Some(places[i].id));
      assert env.fetch(places[i].id) == Fetched(Some(places[i]));
    }
  }

  // ---------------------------------------------------------------------------
  // The nearby procedure's category filter

  /**
   * The `WHERE` clause of `pick_one_nearby` as its definition is given:
   * within the radius, and `p_category is null or p.category = p_category`,
   * so `''` and `all` are compared like real categories.
   */
  predicate NearbyAcceptsAsWritten(pCategory: Option<string>, within: bool, p: PlaceRecord) {
    within && (pCategory.None? || p.category == pCategory.value)
  }

  /** The evidently intended filter: the same `all`/empty rule as `pick_one_random`. */
  predicate NearbyAccepts(pCategory: Option<string>, within: bool, p: PlaceRecord) {
    within && FilterAccepts(pCategory, p.category)
  }

  /** A stored category is one of the real ones, never `all` or empty. */
  predicate StoredCategory(p: PlaceRecord) {
    p.category in {Food.Name(), Cafe.Name(), Sight.Name()}
  }

  /** As written, a nearby pick with the default category `all` (or `''`) accepts no stored place. */
  lemma NearbyAllAcceptsNothing(p: PlaceRecord, within: bool)
    requires StoredCategory(p)
    ensures !NearbyAcceptsAsWritten(Some("all"), within, p)
    ensures !NearbyAcceptsAsWritten(Some(""), within, p)
  {
  }

  /** With that filter, a nearby pick for `all` under the procedure's contract is always a miss. */
  lemma NearbyAllAlwaysMisses(payload: PickPayload, env: PickBackend, places: seq<PlaceRecord>, within: PlaceRecord -> bool)
    requires payload.region == Some("nearby") && payload.category == Some("all")
    requires Given(payload.lat) && Given(payload.lng)
    requires forall i :: 0 <= i < |places| ==> StoredCategory(places[i])
    requires PicksFrom(places, p => NearbyAcceptsAsWritten(Some("all"), within(p), p),
                       env.nearby(payload.lat.value, payload.lng.value, payload.radius.GetOr(DefaultRadius), "all"))
    ensures PickPlace(payload, env).result == Failure(NotFound, NoDetail)
  {
    forall i | 0 <= i < |places| ensures !NearbyAcceptsAsWritten(Some("all"), within(places[i]), places[i]) {
      NearbyAllAcceptsNothing(places[i], within(places[i]));
    }
    PickPlaceCases(payload, env);
  }

  /** With the intended filter, `all` and `''` accept exactly the places within the radius. */
  lemma NearbyAllAcceptsWithinRadius(p: PlaceRecord, within: bool)
    ensures NearbyAccepts(Some("all"), within, p) <==> within
    ensures NearbyAccepts(Some(""), within, p) <==> within
  {
    assert Lower("all") == "all";
  }

  /** With the intended filter, a nearby pick misses only when no stored place is accepted. */
  lemma NearbyPickMisses(payload: PickPayload, env: PickBackend, places: seq<PlaceRecord>, within: PlaceRecord -> bool)
    requires payload.region == Some("nearby")
    requires Given(payload.lat) && Given(payload.lng)
    requires PicksFrom(places, p => NearbyAccepts(Some(payload.category.GetOr("")), within(p), p),
                       env.nearby(payload.lat.value, payload.lng.value, payload.radius.GetOr(DefaultRadius), payload.category.GetOr("")))
    requires TruthyIds(places)
    ensures PickPlace(payload, env).result == Failure(NotFound, NoDetail) <==>
              forall i :: 0 <= i < |places| ==> !NearbyAccepts(Some(payload.category.GetOr("")), within(places[i]), places[i])
  {
    var data := env.nearby(payload.lat.value, payload.lng.value, payload.radius.GetOr(DefaultRadius), payload.category.GetOr("")).data;
    PickPlaceCases(payload, env);
    if |data.value| == 1 {
      var i :| 0 <= i < |places| && NearbyAccepts(Some(payload.category.GetOr("")), within(places[i]), places[i])
               && data.value[0] == IdRow(Some(places[i].id));
      assert PickedId(data).Some?;
    }
  }
}
