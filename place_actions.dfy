/**
 * The place catalog's server actions (src/actions/place-actions.ts): read by
 * id, list a page, create, update and delete. The auth gateway, the catalog
 * store, the geocoder, the image store and `JSON.parse` are parameters (the
 * `Backend` oracles); every action also returns the log of the external calls
 * it issued, in order, so that the ordering rules can be stated.
 */
module PlaceActions {
  import opened Common
  import opened JsText
  import opened Tags

  // ---------------------------------------------------------------------------
  // Records with `undefined` entries

  /** A property of a JavaScript object literal: `undefined`, or some value. */
  datatype Slot<+V> = Undefined | Defined(value: V)

  /**
   * `stripUndefined(obj)`: exactly the entries whose value is not `undefined`,
   * each with its value unchanged (so `null` values stay).
   */
  function StripUndefined<K(!new), V>(obj: map<K, Slot<V>>): (r: map<K, V>)
    ensures forall k :: k in r <==> k in obj && obj[k].Defined?
    ensures forall k :: k in r ==> obj[k] == Defined(r[k])
  {
    map k | k in obj && obj[k].Defined? :: obj[k].value
  }

  /** Values written to a place row. */
  datatype JsValue = JsNull | JsString(text: string) | JsNumberValue(number: real) | JsStringArray(items: seq<string>)

  function NullableString(o: Option<string>): JsValue {
    match o
    case None => JsNull
    case Some(s) => JsString(s)
  }

  function NullableNumber(o: Option<real>): JsValue {
    match o
    case None => JsNull
    case Some(x) => JsNumberValue(x)
  }

  // ---------------------------------------------------------------------------
  // Form fields

  datatype File = File(name: string, size: nat, mimeType: string)

  /**
   * The submitted form. Each text field is `None` when absent; `id` is the
   * field after `Number(...)`.
   */
  datatype PlaceForm = PlaceForm(
    id: JsNumber,
    name: Option<string>,
    category: Option<string>,
    region: Option<string>,
    description: Option<string>,
    address: Option<string>,
    phone: Option<string>,
    tags: Option<string>,
    hours: Option<string>,
    image: Option<File>)

  /** `String(form.get(f) ?? '').trim()`. */
  function TextField(v: Option<string>): string {
    Trim(v.GetOr(""))
  }

  /** `s || null` on a string. */
  function BlankToNull(s: string): (r: Option<string>)
    ensures r.None? <==> s == ""
    ensures r.Some? ==> r.value == s
  {
    if s == "" then None else Some(s)
  }

  /** A form value in a truthy position: present and not the empty string. */
  predicate Truthy(v: Option<string>) {
    v.Some? && v.value != ""
  }

  /** The trimmed address, absent when blank. */
  function Address(form: PlaceForm): Option<string> {
    BlankToNull(TextField(form.address))
  }

  /** A file is uploaded only when one arrives with a positive size. */
  predicate IsNewFile(file: Option<File>) {
    file.Some? && file.value.size > 0
  }

  // ---------------------------------------------------------------------------
  // Image paths

  /** `(name.split('.').pop() || 'jpg').toLowerCase()`. */
  function Extension(fileName: string): (ext: string)
    ensures ext != "" && '.' !in ext
  {
    // `split('.').pop()`, see `AfterLastIsLastPiece`
    var last := AfterLast(fileName, '.');
    var e := if last == "" then "jpg" else last;
    var r := Lower(e);
    assert forall i :: 0 <= i < |r| ==> r[i] != '.' by {
      forall i | 0 <= i < |r| ensures r[i] != '.' {
        assert e[i] != '.';
      }
    }
    r
  }

  /** An object key in the image bucket: `${folder}/${stamp}.${ext}`. */
  datatype ImagePath = ImagePath(folder: string, stamp: string, ext: string)

  /** The key an upload is stored under; `stamp` stands for `${Date.now()}_${random}`. */
  function UploadPath(category: string, stamp: string, fileName: string): ImagePath {
    ImagePath(category, stamp, Extension(fileName))
  }

  /** `file.type || 'image/jpeg'`. */
  function ContentType(f: File): string {
    if f.mimeType == "" then "image/jpeg" else f.mimeType
  }

  // ---------------------------------------------------------------------------
  // Store requests and the backend oracles

  /** The row `createPlaceAction` inserts. */
  datatype InsertPayload = InsertPayload(
    name: string,
    category: string,
    region: string,
    description: Option<string>,
    addressLine1: Option<string>,
    phone: Option<string>,
    tags: Option<seq<string>>,
    imageUrl: Option<string>,
    lat: Option<real>,
    lng: Option<real>,
    hours: Option<string>,
    status: Status)

  datatype Filter = NameContains(pattern: string) | CategoryIs(category: string) | RegionIs(region: string)

  /**
   * A list query: the exact-count head query, or a page of rows ordered by
   * creation time (newest first) with an inclusive row range.
   */
  datatype Query = CountQuery(filters: seq<Filter>) | PageQuery(from: int, to: int, filters: seq<Filter>)

  datatype GeoReply = Located(lat: real, lng: real) | GeoFailed(kind: ErrorType, details: Detail)
  datatype StoreError = StoreError(code: string, message: string)
  datatype InsertReply = Inserted(id: int) | InsertFailed(error: StoreError)
  datatype SelectReply = SelectFailed(message: string) | Selected(row: Option<PlaceRecord>)
  datatype CountReply = CountFailed(message: string) | Counted(count: Option<nat>)
  datatype PageReply = PageFailed(message: string) | PageRows(rows: Option<seq<PlaceRecord>>)

  /** Everything outside the actions, as functions of the request made. */
  datatype Backend = Backend(
    parseJson: string -> JsonValue,
    geocode: string -> GeoReply,
    upload: (ImagePath, File) -> Option<string>,
    publicUrl: ImagePath -> Option<string>,
    insert: InsertPayload -> InsertReply,
    select: JsNumber -> SelectReply,
    update: (JsNumber, map<Column, JsValue>) -> Option<StoreError>,
    delete: JsNumber -> Option<StoreError>,
    count: Query -> CountReply,
    page: Query -> PageReply)

  /** One external call, as it appears in an action's log. */
  datatype Call =
    | Geocode(address: string)
    | Upload(path: ImagePath, contentType: string)
    | PublicUrl(path: ImagePath)
    | Insert(payload: InsertPayload)
    | SelectById(id: JsNumber)
    | Update(id: JsNumber, changes: map<Column, JsValue>)
    | Delete(id: JsNumber)
    | Fetch(query: Query)

  /** A decision taken by an action together with the calls it issued. */
  datatype Run<+T> = Run(result: T, calls: seq<Call>)

  /** A call that changes the catalog store. */
  predicate IsWrite(c: Call) {
    c.Insert? || c.Update? || c.Delete?
  }

  ghost predicate NoWrites(calls: seq<Call>) {
    forall i :: 0 <= i < |calls| ==> !IsWrite(calls[i])
  }

  /** No call before the last one changes the store. */
  ghost predicate WritesOnlyAtEnd(calls: seq<Call>) {
    forall i :: 0 <= i < |calls| - 1 ==> !IsWrite(calls[i])
  }

  const UnauthorizedError: ActionResult<()> := Failure(InternalServerError, Message("UNAUTHORIZED"))

  // ---------------------------------------------------------------------------
  // getPlaceByIdAction

  function GetPlaceById(id: JsNumber, env: Backend): (run: Run<ActionResult<PlaceRecord>>)
    ensures !id.IsFinite() ==> run == Run(Failure(BadRequest, NoDetail), [])
    ensures id.IsFinite() ==> run.calls == [SelectById(id)]
    ensures id.IsFinite() ==> match env.select(id)
      case SelectFailed(m) => run.result == Failure(InternalServerError, Message(m))
      case Selected(None) => run.result == Failure(NotFound, NoDetail)
      case Selected(Some(row)) => run.result == Success(row, None)
  {
    if !id.IsFinite() then Run(Failure(BadRequest, NoDetail), [])
    else
      var reply := env.select(id);
      var result := match reply
        case SelectFailed(m) => Failure(InternalServerError, Message(m))
        case Selected(None) => Failure(NotFound, NoDetail)
        case Selected(Some(row)) => Success(row, None);
      Run(result, [SelectById(id)])
  }

  // ---------------------------------------------------------------------------
  // getPlaceListAction

  /** A value in the request object of the list action. */
  datatype ParamValue = Text(text: string) | Number(number: int)

  /** A page of summary rows and the total count. */
  datatype ListPage = ListPage(rows: seq<PlaceRecord>, total: nat)

  /** Destructuring `{ key = default }` of a text parameter. */
  function TextParam(params: map<string, ParamValue>, key: string, default: string): string {
    if key in params && params[key].Text? then params[key].text else default
  }

  /** Destructuring `{ key = default }` of a number parameter. */
  function NumberParam(params: map<string, ParamValue>, key: string, default: int): int {
    if key in params && params[key].Number? then params[key].number else default
  }

  /** The filters both list queries carry, for the given `q`, `category` and `region`. */
  ghost function ListFilters(q: string, category: string, region: string): seq<Filter> {
    (if Trim(q) != "" then [NameContains("%" + Trim(q) + "%")] else [])
    + (if category != "" then [CategoryIs(category)] else [])
    + (if region != "" then [RegionIs(region)] else [])
  }

  /** The `ilike`/`eq` chain applied to both list queries: each filter is added only when its value is non-blank. */
  method AddFilters(query: Query, q: string, category: string, region: string) returns (r: Query)
    ensures r == query.(filters := query.filters + ListFilters(q, category, region))
  {
    r := query;
    var name := Trim(q);
    if name != "" { r := r.(filters := r.filters + [NameContains("%" + name + "%")]); }
    if category != "" { r := r.(filters := r.filters + [CategoryIs(category)]); }
    if region != "" { r := r.(filters := r.filters + [RegionIs(region)]); }
  }

  method GetPlaceList(params: map<string, ParamValue>, env: Backend) returns (out: Outcome<ListPage>, calls: seq<Call>)
    ensures var q, category, region := TextParam(params, "q", ""), TextParam(params, "category", ""), TextParam(params, "region", "");
            var page, pageSize := NumberParam(params, "page", 0), NumberParam(params, "pageSize", 10);
            var filters := ListFilters(q, category, region);
            && |calls| >= 1
            && calls[0] == Fetch(CountQuery(filters))
            && (env.count(CountQuery(filters)).CountFailed? ==> calls == [calls[0]] && out == Thrown(env.count(CountQuery(filters)).message))
            && (env.count(CountQuery(filters)).Counted? ==>
                  var dataQuery := PageQueryFor(page, pageSize, filters);
                  && calls == [calls[0], Fetch(dataQuery)]
                  && dataQuery.to - dataQuery.from + 1 == pageSize
                  && match env.page(dataQuery)
                     case PageFailed(m) => out == Returned(Failure(InternalServerError, Message(m)))
                     case PageRows(rows) =>
                       out == Returned(Success(ListPage(rows.GetOr([]), env.count(CountQuery(filters)).count.GetOr(0)), None)))
  {
    var q := TextParam(params, "q", "");
    var category := TextParam(params, "category", "");
    var region := TextParam(params, "region", "");
    var page := NumberParam(params, "page", 0);
    var pageSize := NumberParam(params, "pageSize", 10);

    var countQuery := AddFilters(CountQuery([]), q, category, region);
    calls := [Fetch(countQuery)];
    var counted := env.count(countQuery);
    if counted.CountFailed? {
      out := Thrown(counted.message);
      return;
    }

    var from := page * pageSize;
    var to := from + pageSize - 1;

    var dataQuery := AddFilters(PageQuery(from, to, []), q, category, region);
    calls := calls + [Fetch(dataQuery)];
    var reply := env.page(dataQuery);
    match reply
    case PageFailed(m) =>
      out := Returned(Failure(InternalServerError, Message(m)));
    case PageRows(rows) =>
      out := Returned(Success(ListPage(rows.GetOr([]), counted.count.GetOr(0)), None));
  }

  /** The page query for `page`: the inclusive range `range(page * pageSize, page * pageSize + pageSize - 1)`. */
  function PageQueryFor(page: int, pageSize: int, filters: seq<Filter>): Query {
    PageQuery(page * pageSize, page * pageSize + pageSize - 1, filters)
  }

  /**
   * The pages tile the rows: page `p + 1` starts right after page `p` ends, and
   * every later page starts past its end, so no row is on two pages.
   */
  lemma PagesAreContiguous(page: int, pageSize: int, filters: seq<Filter>)
    requires pageSize > 0
    ensures PageQueryFor(page + 1, pageSize, filters).from == PageQueryFor(page, pageSize, filters).to + 1
    ensures forall later :: later > page ==>
              PageQueryFor(later, pageSize, filters).from > PageQueryFor(page, pageSize, filters).to
  {
    forall later | later > page
      ensures PageQueryFor(later, pageSize, filters).from > PageQueryFor(page, pageSize, filters).to
    {
      var gap := later - page - 1;
      assert later * pageSize == page * pageSize + pageSize + gap * pageSize;
      assert gap * pageSize >= 0;
    }
  }

  // ---------------------------------------------------------------------------
  // Steps shared by create and update

  /** The coordinates an action writes, or the geocoder's failure. */
  datatype CoordinateStep = CoordinatesFailed(kind: ErrorType, details: Detail) | Coordinates(lat: Option<real>, lng: Option<real>)

  /** `geocodeByAddress(address)` when there is an address; no coordinates otherwise. */
  function Locate(address: Option<string>, env: Backend): Run<CoordinateStep> {
    match address
    case None => Run(Coordinates(None, None), [])
    case Some(a) =>
      match env.geocode(a)
      case GeoFailed(kind, details) => Run(CoordinatesFailed(kind, details), [Geocode(a)])
      case Located(lat, lng) => Run(Coordinates(Some(lat), Some(lng)), [Geocode(a)])
  }

  datatype ImageStep = UploadFailed(message: string) | ImageUrl(url: Option<string>)

  /**
   * Uploads `file` under `folder` and asks for its public URL; an upload error
   * is thrown inside the action's `try` and so ends it.
   */
  function UploadRun(folder: string, file: File, env: Backend, stamp: string): Run<ImageStep> {
    var path := UploadPath(folder, stamp, file.name);
    match env.upload(path, file)
    case Some(message) => Run(UploadFailed(message), [Upload(path, ContentType(file))])
    case None => Run(ImageUrl(env.publicUrl(path)), [Upload(path, ContentType(file)), PublicUrl(path)])
  }

  // ---------------------------------------------------------------------------
  // createPlaceAction

  /** How the insert's reply is reported: a unique-key violation is a conflict. */
  function InsertResult(reply: InsertReply): ActionResult<int> {
    match reply
    case Inserted(id) => Success(id, None)
    case InsertFailed(e) =>
      if e.code == "23505" then Failure(Conflict, NoDetail) else Failure(InternalServerError, Message(e.message))
  }

  /** The form fields `createPlaceAction` reads, after trimming and tag parsing. */
  datatype CreateFields = CreateFields(
    name: string,
    category: Option<string>,
    region: Option<string>,
    description: Option<string>,
    address: Option<string>,
    phone: Option<string>,
    tags: Option<seq<string>>,
    image: Option<File>,
    hours: Option<string>)

  function ParseCreateFields(form: PlaceForm, parseJson: string -> JsonValue): CreateFields {
    CreateFields(TextField(form.name), form.category, form.region, BlankToNull(TextField(form.description)),
                 Address(form), BlankToNull(TextField(form.phone)), ParseTags(form.tags, parseJson), form.image,
                 BlankToNull(TextField(form.hours)))
  }

  /** The name, category and region checks that `createPlaceAction` makes first. */
  predicate RequiredFieldsPresent(f: CreateFields) {
    f.name != "" && Truthy(f.category) && Truthy(f.region)
  }

  /** What `createPlaceAction` does once the required fields are present. */
  function CreateValidRun(f: CreateFields, env: Backend, stamp: string): Run<ActionResult<int>>
    requires RequiredFieldsPresent(f)
  {
    var geo := Locate(f.address, env);
    match geo.result
    case CoordinatesFailed(kind, details) => Run(Failure(kind, details), geo.calls)
    case Coordinates(lat, lng) =>
      var image := if IsNewFile(f.image) then UploadRun(f.category.value, f.image.value, env, stamp) else Run(ImageUrl(None), []);
      match image.result
      case UploadFailed(message) => Run(Failure(InternalServerError, Message(message)), geo.calls + image.calls)
      case ImageUrl(url) =>
        var payload := InsertPayload(f.name, f.category.value, f.region.value, f.description, f.address, f.phone,
                                     f.tags, url, lat, lng, f.hours, Published);
        Run(InsertResult(env.insert(payload)), geo.calls + image.calls + [Insert(payload)])
  }

  /** `createPlaceAction` as a function of its inputs: the result and the calls issued. */
  function CreateRun(form: PlaceForm, user: Option<AuthUser>, env: Backend, stamp: string): Run<ActionResult<int>> {
    if user.None? then Run(Failure(InternalServerError, Message("UNAUTHORIZED")), [])
    else
      var f := ParseCreateFields(form, env.parseJson);
      if !RequiredFieldsPresent(f) then Run(Failure(BadRequest, NoDetail), [])
      else CreateValidRun(f, env, stamp)
  }

  method CreatePlace(form: PlaceForm, user: Option<AuthUser>, env: Backend, stamp: string)
    returns (result: ActionResult<int>, calls: seq<Call>)
    ensures Run(result, calls) == CreateRun(form, user, env, stamp)
  {
    calls := [];
    if user.None? {
      result := Failure(InternalServerError, Message("UNAUTHORIZED"));
      return;
    }

    // name, category, region, description, address, phone, tags, file and hours, as read from the form
    var fields := ParseCreateFields(form, env.parseJson);
    var category := fields.category;
    var address := fields.address;
    var file := fields.image;

    if fields.name == "" || !Truthy(category) || !Truthy(fields.region) {
      result := Failure(BadRequest, NoDetail);
      return;
    }

    var lat: Option<real> := None;
    var lng: Option<real> := None;
    if address.Some? {
      calls := calls + [Geocode(address.value)];
      var geo := env.geocode(address.value);
      if geo.GeoFailed? {
        result := Failure(geo.kind, geo.details);
        return;
      }
      lat := Some(geo.lat);
      lng := Some(geo.lng);
    }

    ghost var geoStep := Locate(address, env);
    assert geoStep == Run(Coordinates(lat, lng), calls);

    var imageUrl: Option<string> := None;
    if file.Some? && file.value.size > 0 {
      var path := UploadPath(category.value, stamp, file.value.name);
      var upErr := env.upload(path, file.value);
      if upErr.Some? {
        calls := calls + [Upload(path, ContentType(file.value))];
        result := Failure(InternalServerError, Message(upErr.value));
        return;
      }
      calls := calls + [Upload(path, ContentType(file.value)), PublicUrl(path)];
      imageUrl := env.publicUrl(path);
    }

    ghost var imageStep := if IsNewFile(file) then UploadRun(category.value, file.value, env, stamp) else Run(ImageUrl(None), []);
    assert imageStep.result == ImageUrl(imageUrl) && calls == geoStep.calls + imageStep.calls;

    var payload := InsertPayload(fields.name, category.value, fields.region.value, fields.description, address,
                                 fields.phone, fields.tags, imageUrl, lat, lng, fields.hours, Published);
    calls := calls + [Insert(payload)];
    var reply := env.insert(payload);
    match reply
    case Inserted(id) =>
      result := Success(id, None);
    case InsertFailed(e) =>
      if e.code == "23505" {
        result := Failure(Conflict, NoDetail);
      } else {
        result := Failure(InternalServerError, Message(e.message));
      }
  }

  /** The row a successful `createPlaceAction` inserts for these fields. */
  ghost predicate InsertMatchesFields(f: CreateFields, env: Backend, stamp: string, p: InsertPayload) {
    && p.name == f.name && p.name != ""
    && Truthy(f.category) && p.category == f.category.value
    && Truthy(f.region) && p.region == f.region.value
    && p.description == f.description
    && p.addressLine1 == f.address
    && p.phone == f.phone
    && p.tags == f.tags
    && p.hours == f.hours
    && p.status == Published
    && (f.address.None? ==> p.lat.None? && p.lng.None?)
    && (f.address.Some? ==> p.lat.Some? && p.lng.Some? && env.geocode(f.address.value) == Located(p.lat.value, p.lng.value))
    && (IsNewFile(f.image) ==> p.imageUrl == env.publicUrl(UploadPath(p.category, stamp, f.image.value.name)))
    && (!IsNewFile(f.image) ==> p.imageUrl.None?)
  }

  /**
   * `requireAuth` throws inside the `try`, so a missing user is an internal error;
   * the required fields are checked next, and no call is made before both pass.
   */
  lemma CreateChecksFirst(form: PlaceForm, user: Option<AuthUser>, env: Backend, stamp: string)
    ensures var run := CreateRun(form, user, env, stamp);
            var f := ParseCreateFields(form, env.parseJson);
            && (user.None? ==> run == Run(Failure(InternalServerError, Message("UNAUTHORIZED")), []))
            && (user.Some? && !RequiredFieldsPresent(f) ==> run == Run(Failure(BadRequest, NoDetail), []))
            && (user.Some? && RequiredFieldsPresent(f) ==> run == CreateValidRun(f, env, stamp))
            && (run.calls != [] ==> user.Some? && RequiredFieldsPresent(f))
  {
  }

  /** The geocoder is asked exactly when the trimmed address is non-empty, as the first call, and its failure is returned unchanged. */
  lemma CreateGeocodes(f: CreateFields, env: Backend, stamp: string)
    requires RequiredFieldsPresent(f)
    ensures var run := CreateValidRun(f, env, stamp);
            && (f.address.Some? ==> |run.calls| > 0 && run.calls[0] == Geocode(f.address.value))
            && (f.address.Some? && env.geocode(f.address.value).GeoFailed? ==>
                  run == Run(Failure(env.geocode(f.address.value).kind, env.geocode(f.address.value).details),
                             [Geocode(f.address.value)]))
  {
    var run := CreateValidRun(f, env, stamp);
    var geo := Locate(f.address, env);
    if geo.result.CoordinatesFailed? {
      assert run.calls == geo.calls;
    } else {
      var image := if IsNewFile(f.image) then UploadRun(f.category.value, f.image.value, env, stamp) else Run(ImageUrl(None), []);
      if image.result.UploadFailed? {
        assert run.calls == geo.calls + image.calls;
      } else {
        assert run.calls == geo.calls + image.calls + [run.calls[|run.calls| - 1]];
      }
    }
  }

  /** No other call is a geocode. */
  lemma CreateGeocodesOnce(f: CreateFields, env: Backend, stamp: string)
    requires RequiredFieldsPresent(f)
    ensures var run := CreateValidRun(f, env, stamp);
            forall i :: 0 <= i < |run.calls| && run.calls[i].Geocode? ==> i == 0 && f.address.Some?
  {
    var run := CreateValidRun(f, env, stamp);
    var geo := Locate(f.address, env);
    if geo.result.CoordinatesFailed? {
      assert run.calls == geo.calls;
    } else {
      var image := if IsNewFile(f.image) then UploadRun(f.category.value, f.image.value, env, stamp) else Run(ImageUrl(None), []);
      if image.result.UploadFailed? {
        assert run.calls == geo.calls + image.calls;
      } else {
        assert run.calls == geo.calls + image.calls + [run.calls[|run.calls| - 1]];
      }
    }
  }

  /**
   * A non-empty file is uploaded into the category's folder right after geocoding
   * succeeds (or first when there is no address); no other call is an upload, and
   * a failed upload ends the action.
   */
  lemma CreateUploads(f: CreateFields, env: Backend, stamp: string)
    requires RequiredFieldsPresent(f)
    ensures var run := CreateValidRun(f, env, stamp);
            var g := if f.address.Some? then 1 else 0;
            var geoFailed := f.address.Some? && env.geocode(f.address.value).GeoFailed?;
            && (IsNewFile(f.image) && !geoFailed ==>
                  |run.calls| > g
                  && run.calls[g] == Upload(UploadPath(f.category.value, stamp, f.image.value.name), ContentType(f.image.value)))
            && (IsNewFile(f.image) && !geoFailed && env.upload(UploadPath(f.category.value, stamp, f.image.value.name), f.image.value).Some? ==>
                  |run.calls| == g + 1
                  && run.result == Failure(InternalServerError,
                                           Message(env.upload(UploadPath(f.category.value, stamp, f.image.value.name), f.image.value).value)))
  {
    var run := CreateValidRun(f, env, stamp);
    var geo := Locate(f.address, env);
    if geo.result.CoordinatesFailed? {
      assert run.calls == geo.calls;
    } else {
      var image := if IsNewFile(f.image) then UploadRun(f.category.value, f.image.value, env, stamp) else Run(ImageUrl(None), []);
      if image.result.UploadFailed? {
        assert run.calls == geo.calls + image.calls;
      } else {
        assert run.calls == geo.calls + image.calls + [run.calls[|run.calls| - 1]];
      }
    }
  }

  /** No call but that one is an upload, and none happens when there is no new file or geocoding failed. */
  lemma CreateUploadsOnce(f: CreateFields, env: Backend, stamp: string)
    requires RequiredFieldsPresent(f)
    ensures var run := CreateValidRun(f, env, stamp);
            var g := if f.address.Some? then 1 else 0;
            var geoFailed := f.address.Some? && env.geocode(f.address.value).GeoFailed?;
            forall i :: 0 <= i < |run.calls| && run.calls[i].Upload? ==> i == g && IsNewFile(f.image) && !geoFailed
  {
    var run := CreateValidRun(f, env, stamp);
    var geo := Locate(f.address, env);
    if geo.result.CoordinatesFailed? {
      assert run.calls == geo.calls;
    } else {
      var image := if IsNewFile(f.image) then UploadRun(f.category.value, f.image.value, env, stamp) else Run(ImageUrl(None), []);
      if image.result.UploadFailed? {
        assert run.calls == geo.calls + image.calls;
      } else {
        assert run.calls == geo.calls + image.calls + [run.calls[|run.calls| - 1]];
      }
    }
  }

  /** The insert is the only write and the last call, and it is issued whenever the action succeeds. */
  lemma CreateInsertsLast(f: CreateFields, env: Backend, stamp: string)
    requires RequiredFieldsPresent(f)
    ensures var run := CreateValidRun(f, env, stamp);
            && WritesOnlyAtEnd(run.calls)
            && (run.result.Success? ==> run.calls != [] && run.calls[|run.calls| - 1].Insert?)
  {
    var run := CreateValidRun(f, env, stamp);
    var geo := Locate(f.address, env);
    assert NoWrites(geo.calls);
    if geo.result.Coordinates? {
      var image := if IsNewFile(f.image) then UploadRun(f.category.value, f.image.value, env, stamp) else Run(ImageUrl(None), []);
      assert NoWrites(image.calls);
      if image.result.UploadFailed? {
        assert run.calls == geo.calls + image.calls;
      } else {
        assert run.calls == (geo.calls + image.calls) + [run.calls[|run.calls| - 1]];
      }
    }
  }

  /** The insert carries the form's values, and its reply decides the result. */
  lemma CreateInserts(f: CreateFields, env: Backend, stamp: string)
    requires RequiredFieldsPresent(f)
    ensures var run := CreateValidRun(f, env, stamp);
            run.calls != [] && IsWrite(run.calls[|run.calls| - 1]) ==>
              var last := run.calls[|run.calls| - 1];
              && last.Insert?
              && InsertMatchesFields(f, env, stamp, last.payload)
              && run.result == InsertResult(env.insert(last.payload))
  {
    var run := CreateValidRun(f, env, stamp);
    var geo := Locate(f.address, env);
    if geo.result.CoordinatesFailed? {
      assert run.calls == geo.calls;
    } else {
      var image := if IsNewFile(f.image) then UploadRun(f.category.value, f.image.value, env, stamp) else Run(ImageUrl(None), []);
      if image.result.UploadFailed? {
        assert run.calls == geo.calls + image.calls;
      } else {
        assert run.calls == geo.calls + image.calls + [run.calls[|run.calls| - 1]];
      }
    }
  }

  /** Latitude and longitude are inserted together or not at all. */
  lemma InsertedCoordinatesPaired(f: CreateFields, env: Backend, stamp: string, p: InsertPayload)
    requires InsertMatchesFields(f, env, stamp, p)
    ensures p.lat.Some? <==> p.lng.Some?
  {
  }

  /** A unique-key violation is reported as a conflict, any other store error as an internal error. */
  lemma InsertResultCases(reply: InsertReply)
    ensures InsertResult(reply).Success? <==> reply.Inserted?
    ensures reply.InsertFailed? ==>
              (InsertResult(reply).kind == Conflict <==> reply.error.code == "23505")
  {
  }

  // ---------------------------------------------------------------------------
  // updatePlaceAction

  /** The form fields `updatePlaceAction` reads, after trimming and tag parsing. */
  datatype UpdateFields = UpdateFields(
    name: string,
    category: Option<string>,
    region: Option<string>,
    description: Option<string>,
    address: Option<string>,
    phone: Option<string>,
    tags: Option<seq<string>>,
    image: Option<File>)

  function ParseUpdateFields(form: PlaceForm, parseJson: string -> JsonValue): UpdateFields {
    UpdateFields(TextField(form.name), form.category, form.region, BlankToNull(TextField(form.description)),
                 Address(form), BlankToNull(TextField(form.phone)), ParseTags(form.tags, parseJson), form.image)
  }

  /** `(address || '') !== (current.address_line1 || '')`. */
  predicate AddressChanged(f: UpdateFields, current: PlaceRecord) {
    f.address.GetOr("") != current.addressLine1.GetOr("")
  }

  /** The address changed to a non-empty value, so the update geocodes it. */
  predicate GeocodesOnUpdate(f: UpdateFields, current: PlaceRecord) {
    AddressChanged(f, current) && f.address.Some?
  }

  /** Latitude and longitude are both null or both numbers. */
  predicate PairedCoordinates(lat: JsValue, lng: JsValue) {
    (lat == JsNull) == (lng == JsNull)
  }

  /** The columns `updatePlaceAction` may write, each with its property name in the update object. */
  datatype Column =
    | ColName
    | ColCategory
    | ColRegion
    | ColDescription
    | ColAddressLine1
    | ColPhone
    | ColTags
    | ColImageUrl
    | ColLat
    | ColLng
    | ColUpdatedAt
  {
    function Key(): string {
      match this
      case ColName => "name"
      case ColCategory => "category"
      case ColRegion => "region"
      case ColDescription => "description"
      case ColAddressLine1 => "address_line1"
      case ColPhone => "phone"
      case ColTags => "tags"
      case ColImageUrl => "image_url"
      case ColLat => "lat"
      case ColLng => "lng"
      case ColUpdatedAt => "updated_at"
    }
  }

  /** Distinct columns are distinct properties, so keying the update by `Column` loses nothing. */
  lemma ColumnKeysDistinct(a: Column, b: Column)
    ensures a.Key() == b.Key() <==> a == b
  {
  }

  const Columns: set<Column> := {ColName, ColCategory, ColRegion, ColDescription, ColAddressLine1, ColPhone,
                                 ColTags, ColImageUrl, ColLat, ColLng, ColUpdatedAt}

  /** The properties of `payloadBase`, one per column. */
  function UpdateSlot(c: Column, f: UpdateFields, imageUrl: Option<string>, lat: Option<real>, lng: Option<real>, now: string)
    : Slot<JsValue>
  {
    match c
    case ColName => if f.name == "" then Undefined else Defined(JsString(f.name))
    case ColCategory => if f.category.None? then Undefined else Defined(JsString(f.category.value))
    case ColRegion => if f.region.None? then Undefined else Defined(JsString(f.region.value))
    case ColDescription => Defined(NullableString(f.description))
    case ColAddressLine1 => Defined(NullableString(f.address))
    case ColPhone => Defined(NullableString(f.phone))
    case ColTags => if f.tags.None? then Undefined else Defined(JsStringArray(f.tags.value))
    case ColImageUrl => Defined(NullableString(imageUrl))
    case ColLat => Defined(NullableNumber(lat))
    case ColLng => Defined(NullableNumber(lng))
    case ColUpdatedAt => Defined(JsString(now))
  }

  /** `stripUndefined(payloadBase)`. */
  function UpdatePayload(f: UpdateFields, imageUrl: Option<string>, lat: Option<real>, lng: Option<real>, now: string)
    : map<Column, JsValue>
  {
    StripUndefined(map c | c in Columns :: UpdateSlot(c, f, imageUrl, lat, lng, now))
  }

  /** Every column is a property of `payloadBase`. */
  lemma ColumnsComplete(c: Column)
    ensures c in Columns
  {
  }

  /** One column of the partial update: present exactly when its property is defined, and then with that value. */
  lemma UpdatePayloadAt(f: UpdateFields, imageUrl: Option<string>, lat: Option<real>, lng: Option<real>, now: string, c: Column)
    ensures var p := UpdatePayload(f, imageUrl, lat, lng, now);
            && (c in p <==> UpdateSlot(c, f, imageUrl, lat, lng, now).Defined?)
            && (c in p ==> Defined(p[c]) == UpdateSlot(c, f, imageUrl, lat, lng, now))
  {
    ColumnsComplete(c);
  }

  /** How the update's reply is reported. */
  function UpdateResult(error: Option<StoreError>): ActionResult<()> {
    match error
    case Some(e) => Failure(InternalServerError, Message(e.message))
    case None => Success((), None)
  }

  /** The coordinates an update writes: the stored ones unless the address changed. */
  function UpdateCoordinates(f: UpdateFields, current: PlaceRecord, env: Backend): Run<CoordinateStep> {
    if AddressChanged(f, current) then Locate(f.address, env) else Run(Coordinates(current.lat, current.lng), [])
  }

  /** What `updatePlaceAction` does once the stored row `current` is loaded. */
  function UpdateLoadedRun(id: JsNumber, f: UpdateFields, current: PlaceRecord, env: Backend, stamp: string, now: string)
    : Run<ActionResult<()>>
  {
    var geo := UpdateCoordinates(f, current, env);
    match geo.result
    case CoordinatesFailed(kind, details) => Run(Failure(kind, details), geo.calls)
    case Coordinates(lat, lng) =>
      var image := if IsNewFile(f.image) then UploadRun(f.category.GetOr(current.category), f.image.value, env, stamp)
                   else Run(ImageUrl(current.imageUrl), []);
      match image.result
      case UploadFailed(message) => Run(Failure(InternalServerError, Message(message)), geo.calls + image.calls)
      case ImageUrl(url) =>
        var payload := UpdatePayload(f, url, lat, lng, now);
        Run(UpdateResult(env.update(id, payload)), geo.calls + image.calls + [Update(id, payload)])
  }

  /** `updatePlaceAction` as a function of its inputs: the result and the calls issued. */
  function UpdateRun(form: PlaceForm, user: Option<AuthUser>, env: Backend, stamp: string, now: string): Run<ActionResult<()>> {
    if user.None? then Run(UnauthorizedError, [])
    else if !form.id.Truthy() then Run(Failure(BadRequest, NoDetail), [])
    else
      match env.select(form.id)
      case SelectFailed(m) => Run(Failure(InternalServerError, Message(m)), [SelectById(form.id)])
      case Selected(None) => Run(Failure(NotFound, NoDetail), [SelectById(form.id)])
      case Selected(Some(current)) =>
        var rest := UpdateLoadedRun(form.id, ParseUpdateFields(form, env.parseJson), current, env, stamp, now);
        Run(rest.result, [SelectById(form.id)] + rest.calls)
  }

  method UpdatePlace(form: PlaceForm, user: Option<AuthUser>, env: Backend, stamp: string, now: string)
    returns (result: ActionResult<()>, calls: seq<Call>)
    ensures Run(result, calls) == UpdateRun(form, user, env, stamp, now)
  {
    calls := [];
    if user.None? {
      result := UnauthorizedError;
      return;
    }

    var id := form.id;
    if !id.Truthy() {
      result := Failure(BadRequest, NoDetail);
      return;
    }
    calls := [SelectById(id)];
    var selected := env.select(id);
    if selected.SelectFailed? {
      result := Failure(InternalServerError, Message(selected.message));
      return;
    }
    if selected.row.None? {
      result := Failure(NotFound, NoDetail);
      return;
    }
    var current := selected.row.value;

    // name, category, region, description, address, phone, tags and file, as read from the form
    var fields := ParseUpdateFields(form, env.parseJson);
    var address := fields.address;
    var file := fields.image;

    // the calls made after the select
    var log: seq<Call> := [];
    var lat := current.lat;
    var lng := current.lng;
    if address.GetOr("") != current.addressLine1.GetOr("") {
      if address.Some? {
        log := log + [Geocode(address.value)];
        var geo := env.geocode(address.value);
        if geo.GeoFailed? {
          result := Failure(geo.kind, geo.details);
          calls := calls + log;
          return;
        }
        lat := Some(geo.lat);
        lng := Some(geo.lng);
      } else {
        lat := None;
        lng := None;
      }
    }

    ghost var geoStep := UpdateCoordinates(fields, current, env);
    assert geoStep == Run(Coordinates(lat, lng), log);

    var imageUrl := current.imageUrl;
    if file.Some? && file.value.size > 0 {
      var cate := fields.category.GetOr(current.category);
      var path := UploadPath(cate, stamp, file.value.name);
      var upErr := env.upload(path, file.value);
      if upErr.Some? {
        log := log + [Upload(path, ContentType(file.value))];
        result := Failure(InternalServerError, Message(upErr.value));
        calls := calls + log;
        return;
      }
      log := log + [Upload(path, ContentType(file.value)), PublicUrl(path)];
      imageUrl := env.publicUrl(path);
    }

    ghost var imageStep := if IsNewFile(fields.image) then UploadRun(fields.category.GetOr(current.category), file.value, env, stamp)
                           else Run(ImageUrl(current.imageUrl), []);
    assert imageStep.result == ImageUrl(imageUrl) && log == geoStep.calls + imageStep.calls;

    var payload := UpdatePayload(fields, imageUrl, lat, lng, now);
    log := log + [Update(id, payload)];
    calls := calls + log;
    var error := env.update(id, payload);
    if error.Some? {
      result := Failure(InternalServerError, Message(error.value.message));
    } else {
      result := Success((), None);
    }
  }

  /** Name, category, region and tags are omitted when blank or missing. */
  ghost predicate OptionalColumnsMatch(f: UpdateFields, p: map<Column, JsValue>) {
    && (ColName in p <==> f.name != "")
    && (ColName in p ==> p[ColName] == JsString(f.name))
    && (ColCategory in p <==> f.category.Some?)
    && (ColCategory in p ==> p[ColCategory] == JsString(f.category.value))
    && (ColRegion in p <==> f.region.Some?)
    && (ColRegion in p ==> p[ColRegion] == JsString(f.region.value))
    && (ColTags in p <==> f.tags.Some?)
    && (ColTags in p ==> p[ColTags] == JsStringArray(f.tags.value))
  }

  /** Description, address and phone are always written, as null when blank, and so is the time stamp. */
  ghost predicate FixedColumnsMatch(f: UpdateFields, now: string, p: map<Column, JsValue>) {
    && ColDescription in p && p[ColDescription] == NullableString(f.description)
    && ColAddressLine1 in p && p[ColAddressLine1] == NullableString(f.address)
    && ColPhone in p && p[ColPhone] == NullableString(f.phone)
    && ColUpdatedAt in p && p[ColUpdatedAt] == JsString(now)
  }

  /** The image is kept unless a non-empty file arrives, and is then the new file's public URL. */
  ghost predicate ImageColumnMatches(f: UpdateFields, current: PlaceRecord, env: Backend, stamp: string, p: map<Column, JsValue>) {
    && ColImageUrl in p
    && (!IsNewFile(f.image) ==> p[ColImageUrl] == NullableString(current.imageUrl))
    && (IsNewFile(f.image) ==>
          p[ColImageUrl] == NullableString(env.publicUrl(UploadPath(f.category.GetOr(current.category), stamp, f.image.value.name))))
  }

  /** The coordinates are kept unless the address changed; then they are cleared or geocoded from the new address. */
  ghost predicate CoordinateColumnsMatch(f: UpdateFields, current: PlaceRecord, env: Backend, p: map<Column, JsValue>) {
    && ColLat in p && ColLng in p
    && (!AddressChanged(f, current) ==> p[ColLat] == NullableNumber(current.lat) && p[ColLng] == NullableNumber(current.lng))
    && (AddressChanged(f, current) && f.address.None? ==> p[ColLat] == JsNull && p[ColLng] == JsNull)
    && (AddressChanged(f, current) && f.address.Some? ==>
          p[ColLat].JsNumberValue? && p[ColLng].JsNumberValue?
          && env.geocode(f.address.value) == Located(p[ColLat].number, p[ColLng].number))
  }

  /** The partial update `updatePlaceAction` sends for these fields and stored row. */
  ghost predicate UpdateMatchesFields(f: UpdateFields, current: PlaceRecord, env: Backend, stamp: string, now: string,
                                      p: map<Column, JsValue>) {
    && OptionalColumnsMatch(f, p)
    && FixedColumnsMatch(f, now, p)
    && ImageColumnMatches(f, current, env, stamp, p)
    && CoordinateColumnsMatch(f, current, env, p)
  }

  lemma PayloadOptionalColumns(f: UpdateFields, imageUrl: Option<string>, lat: Option<real>, lng: Option<real>, now: string)
    ensures OptionalColumnsMatch(f, UpdatePayload(f, imageUrl, lat, lng, now))
  {
    UpdatePayloadAt(f, imageUrl, lat, lng, now, ColName);
    UpdatePayloadAt(f, imageUrl, lat, lng, now, ColCategory);
    UpdatePayloadAt(f, imageUrl, lat, lng, now, ColRegion);
    UpdatePayloadAt(f, imageUrl, lat, lng, now, ColTags);
  }

  lemma PayloadFixedColumns(f: UpdateFields, imageUrl: Option<string>, lat: Option<real>, lng: Option<real>, now: string)
    ensures FixedColumnsMatch(f, now, UpdatePayload(f, imageUrl, lat, lng, now))
  {
    UpdatePayloadAt(f, imageUrl, lat, lng, now, ColDescription);
    UpdatePayloadAt(f, imageUrl, lat, lng, now, ColAddressLine1);
    UpdatePayloadAt(f, imageUrl, lat, lng, now, ColPhone);
    UpdatePayloadAt(f, imageUrl, lat, lng, now, ColUpdatedAt);
  }

  /**
   * The partial update built from the fields, the image URL and the coordinates
   * meets `UpdateMatchesFields` whenever the image URL and the coordinates are the
   * ones the image and address rules call for.
   */
  lemma UpdatePayloadMatches(f: UpdateFields, current: PlaceRecord, env: Backend, stamp: string, now: string,
                             imageUrl: Option<string>, lat: Option<real>, lng: Option<real>)
    requires !IsNewFile(f.image) ==> imageUrl == current.imageUrl
    requires IsNewFile(f.image) ==> imageUrl == env.publicUrl(UploadPath(f.category.GetOr(current.category), stamp, f.image.value.name))
    requires !AddressChanged(f, current) ==> lat == current.lat && lng == current.lng
    requires AddressChanged(f, current) && f.address.None? ==> lat.None? && lng.None?
    requires AddressChanged(f, current) && f.address.Some? ==>
               lat.Some? && lng.Some? && env.geocode(f.address.value) == Located(lat.value, lng.value)
    ensures UpdateMatchesFields(f, current, env, stamp, now, UpdatePayload(f, imageUrl, lat, lng, now))
  {
    PayloadOptionalColumns(f, imageUrl, lat, lng, now);
    PayloadFixedColumns(f, imageUrl, lat, lng, now);
    UpdatePayloadAt(f, imageUrl, lat, lng, now, ColImageUrl);
    UpdatePayloadAt(f, imageUrl, lat, lng, now, ColLat);
    UpdatePayloadAt(f, imageUrl, lat, lng, now, ColLng);
  }

  /** Stored coordinates that are paired stay paired through an update. */
  lemma UpdateKeepsCoordinatesPaired(f: UpdateFields, current: PlaceRecord, env: Backend, stamp: string, now: string,
                                     p: map<Column, JsValue>)
    requires UpdateMatchesFields(f, current, env, stamp, now, p)
    requires PairedCoordinates(NullableNumber(current.lat), NullableNumber(current.lng))
    ensures ColLat in p && ColLng in p && PairedCoordinates(p[ColLat], p[ColLng])
  {
  }

  /** The checks `updatePlaceAction` makes before it changes anything. */
  lemma UpdateChecksFirst(form: PlaceForm, user: Option<AuthUser>, env: Backend, stamp: string, now: string)
    ensures var run := UpdateRun(form, user, env, stamp, now);
            && (user.None? ==> run == Run(UnauthorizedError, []))
            // A falsy id (0 or NaN) is rejected before the store is touched.
            && (user.Some? && !form.id.Truthy() ==> run == Run(Failure(BadRequest, NoDetail), []))
            && (user.Some? && form.id.Truthy() ==> run.calls[0] == SelectById(form.id))
            && (user.Some? && form.id.Truthy() && env.select(form.id).SelectFailed? ==>
                  run == Run(Failure(InternalServerError, Message(env.select(form.id).message)), [SelectById(form.id)]))
            && (user.Some? && form.id.Truthy() && env.select(form.id) == Selected(None) ==>
                  run == Run(Failure(NotFound, NoDetail), [SelectById(form.id)]))
            // Past the checks, the rest of the action works on the loaded row.
            && (user.Some? && form.id.Truthy() && env.select(form.id).Selected? && env.select(form.id).row.Some? ==>
                  var rest := UpdateLoadedRun(form.id, ParseUpdateFields(form, env.parseJson), env.select(form.id).row.value,
                                              env, stamp, now);
                  run == Run(rest.result, [SelectById(form.id)] + rest.calls))
  {
  }

  /** Once the row is loaded, the geocoder is asked exactly when the address changed to a non-empty value, as the first call after the select. */
  lemma UpdateGeocodesOnChange(id: JsNumber, f: UpdateFields, current: PlaceRecord, env: Backend, stamp: string, now: string)
    ensures var run := UpdateLoadedRun(id, f, current, env, stamp, now);
            && (GeocodesOnUpdate(f, current) ==> |run.calls| > 0 && run.calls[0] == Geocode(f.address.value))
            && (GeocodesOnUpdate(f, current) && env.geocode(f.address.value).GeoFailed? ==>
                  run == Run(Failure(env.geocode(f.address.value).kind, env.geocode(f.address.value).details),
                             [Geocode(f.address.value)]))
  {
    var run := UpdateLoadedRun(id, f, current, env, stamp, now);
    var geo := UpdateCoordinates(f, current, env);
    if geo.result.CoordinatesFailed? {
      assert run.calls == geo.calls;
    } else {
      var image := if IsNewFile(f.image) then UploadRun(f.category.GetOr(current.category), f.image.value, env, stamp)
                   else Run(ImageUrl(current.imageUrl), []);
      if image.result.UploadFailed? {
        assert run.calls == geo.calls + image.calls;
      } else {
        assert run.calls == geo.calls + image.calls + [run.calls[|run.calls| - 1]];
      }
    }
  }

  /** No other call is a geocode. */
  lemma UpdateGeocodesOnce(id: JsNumber, f: UpdateFields, current: PlaceRecord, env: Backend, stamp: string, now: string)
    ensures var run := UpdateLoadedRun(id, f, current, env, stamp, now);
            forall i :: 0 <= i < |run.calls| && run.calls[i].Geocode? ==> i == 0 && GeocodesOnUpdate(f, current)
  {
    var run := UpdateLoadedRun(id, f, current, env, stamp, now);
    var geo := UpdateCoordinates(f, current, env);
    if geo.result.CoordinatesFailed? {
      assert run.calls == geo.calls;
    } else {
      var image := if IsNewFile(f.image) then UploadRun(f.category.GetOr(current.category), f.image.value, env, stamp)
                   else Run(ImageUrl(current.imageUrl), []);
      if image.result.UploadFailed? {
        assert run.calls == geo.calls + image.calls;
      } else {
        assert run.calls == geo.calls + image.calls + [run.calls[|run.calls| - 1]];
      }
    }
  }

  /**
   * A non-empty file is uploaded into the submitted category's folder, or else the
   * stored one's, right after any geocoding succeeds; no other call is an upload,
   * and a failed upload ends the action.
   */
  lemma UpdateUploads(id: JsNumber, f: UpdateFields, current: PlaceRecord, env: Backend, stamp: string, now: string)
    ensures var run := UpdateLoadedRun(id, f, current, env, stamp, now);
            var g := if GeocodesOnUpdate(f, current) then 1 else 0;
            var geoFailed := GeocodesOnUpdate(f, current) && env.geocode(f.address.value).GeoFailed?;
            && (IsNewFile(f.image) && !geoFailed ==>
                  |run.calls| > g
                  && run.calls[g] == Upload(UploadPath(f.category.GetOr(current.category), stamp, f.image.value.name), ContentType(f.image.value)))
            && (IsNewFile(f.image) && !geoFailed && env.upload(UploadPath(f.category.GetOr(current.category), stamp, f.image.value.name), f.image.value).Some? ==>
                  |run.calls| == g + 1
                  && run.result == Failure(InternalServerError,
                                           Message(env.upload(UploadPath(f.category.GetOr(current.category), stamp, f.image.value.name), f.image.value).value)))
  {
    var run := UpdateLoadedRun(id, f, current, env, stamp, now);
    var geo := UpdateCoordinates(f, current, env);
    if geo.result.CoordinatesFailed? {
      assert run.calls == geo.calls;
    } else {
      var image := if IsNewFile(f.image) then UploadRun(f.category.GetOr(current.category), f.image.value, env, stamp)
                   else Run(ImageUrl(current.imageUrl), []);
      if image.result.UploadFailed? {
        assert run.calls == geo.calls + image.calls;
      } else {
        assert run.calls == geo.calls + image.calls + [run.calls[|run.calls| - 1]];
      }
    }
  }

  /** No call but that one is an upload, and none happens when there is no new file or geocoding failed. */
  lemma UpdateUploadsOnce(id: JsNumber, f: UpdateFields, current: PlaceRecord, env: Backend, stamp: string, now: string)
    ensures var run := UpdateLoadedRun(id, f, current, env, stamp, now);
            var g := if GeocodesOnUpdate(f, current) then 1 else 0;
            var geoFailed := GeocodesOnUpdate(f, current) && env.geocode(f.address.value).GeoFailed?;
            forall i :: 0 <= i < |run.calls| && run.calls[i].Upload? ==> i == g && IsNewFile(f.image) && !geoFailed
  {
    var run := UpdateLoadedRun(id, f, current, env, stamp, now);
    var geo := UpdateCoordinates(f, current, env);
    if geo.result.CoordinatesFailed? {
      assert run.calls == geo.calls;
    } else {
      var image := if IsNewFile(f.image) then UploadRun(f.category.GetOr(current.category), f.image.value, env, stamp)
                   else Run(ImageUrl(current.imageUrl), []);
      if image.result.UploadFailed? {
        assert run.calls == geo.calls + image.calls;
      } else {
        assert run.calls == geo.calls + image.calls + [run.calls[|run.calls| - 1]];
      }
    }
  }

  /** Once the row is loaded, the update is the only write and the last call, and it is issued whenever the action succeeds. */
  lemma UpdateWritesLast(id: JsNumber, f: UpdateFields, current: PlaceRecord, env: Backend, stamp: string, now: string)
    ensures var run := UpdateLoadedRun(id, f, current, env, stamp, now);
            && WritesOnlyAtEnd(run.calls)
            && (run.result.Success? ==> run.calls != [] && run.calls[|run.calls| - 1].Update?)
  {
    var run := UpdateLoadedRun(id, f, current, env, stamp, now);
    var geo := UpdateCoordinates(f, current, env);
    assert NoWrites(geo.calls);
    if geo.result.Coordinates? {
      var image := if IsNewFile(f.image) then UploadRun(f.category.GetOr(current.category), f.image.value, env, stamp)
                   else Run(ImageUrl(current.imageUrl), []);
      assert NoWrites(image.calls);
      if image.result.UploadFailed? {
        assert run.calls == geo.calls + image.calls;
      } else {
        assert run.calls == (geo.calls + image.calls) + [run.calls[|run.calls| - 1]];
      }
    }
  }

  /** The update writes what `UpdateMatchesFields` describes, and its reply decides the result. */
  lemma UpdateWrites(id: JsNumber, f: UpdateFields, current: PlaceRecord, env: Backend, stamp: string, now: string)
    ensures var run := UpdateLoadedRun(id, f, current, env, stamp, now);
            run.calls != [] && IsWrite(run.calls[|run.calls| - 1]) ==>
              var last := run.calls[|run.calls| - 1];
              && last == Update(id, last.changes)
              && UpdateMatchesFields(f, current, env, stamp, now, last.changes)
              && run.result == UpdateResult(env.update(id, last.changes))
  {
    var run := UpdateLoadedRun(id, f, current, env, stamp, now);
    var geo := UpdateCoordinates(f, current, env);
    if geo.result.Coordinates? {
      var image := if IsNewFile(f.image) then UploadRun(f.category.GetOr(current.category), f.image.value, env, stamp)
                   else Run(ImageUrl(current.imageUrl), []);
      if image.result.ImageUrl? {
        var payload := UpdatePayload(f, image.result.url, geo.result.lat, geo.result.lng, now);
        UpdatePayloadMatches(f, current, env, stamp, now, image.result.url, geo.result.lat, geo.result.lng);
        assert run == Run(UpdateResult(env.update(id, payload)), geo.calls + image.calls + [Update(id, payload)]);
      } else {
        assert run.calls == geo.calls + image.calls;
      }
    } else {
      assert run.calls == geo.calls;
    }
  }

  // ---------------------------------------------------------------------------
  // deletePlaceAction

  /** `requireAuth` runs outside any `try` here, so a missing user escapes as an exception. */
  function DeletePlace(id: JsNumber, user: Option<AuthUser>, env: Backend): (run: Run<Outcome<bool>>)
    ensures user.None? ==> run == Run(Thrown("UNAUTHORIZED"), [])
    ensures user.Some? && !id.Truthy() ==> run == Run(Returned(Failure(BadRequest, NoDetail)), [])
    ensures user.Some? && id.Truthy() ==> run.calls == [Delete(id)]
    ensures user.Some? && id.Truthy() ==>
              (run.result == Returned(Success(true, None)) <==> env.delete(id).None?)
    ensures user.Some? && id.Truthy() && env.delete(id).Some? ==>
              run.result == Returned(Failure(InternalServerError, Message(env.delete(id).value.message)))
  {
    if user.None? then Run(Thrown("UNAUTHORIZED"), [])
    else if !id.Truthy() then Run(Returned(Failure(BadRequest, NoDetail)), [])
    else
      match env.delete(id)
      case Some(e) => Run(Returned(Failure(InternalServerError, Message(e.message))), [Delete(id)])
      case None => Run(Returned(Success(true, None)), [Delete(id)])
  }
}
