/**
 * `PublicRecordClient` (src/public_record/client.py): the facade that owns one client per
 * record category, fans a search out to all of them, routes a search or a record
 * lookup to one of them by a case-insensitive name or alias, and reports which
 * categories have an API key.
 *
 * The category clients' own `search` and `get_record` return fixed mock dictionaries;
 * here they are arbitrary functions (a `Behaviour`), which may also fail, standing for
 * a raised exception with its message.
 */
module PublicRecord {
  import opened Wrappers
  import opened Text
  import opened Base

  /** The four categories wired into the facade. */
  datatype Category = Court | Property | Business | Government

  /** The categories in the order the facade lists and searches them. */
  const Categories: seq<Category> := [Court, Property, Business, Government]

  /** The canonical name: the client's `api_type` and the facade's dictionary key. */
  function Name(c: Category): string {
    match c
    case Court => "court_records"
    case Property => "property_records"
    case Business => "business_registration"
    case Government => "government_data"
  }

  /** The short alias `search_by_type` and `get_record_by_type` also accept. */
  function Alias(c: Category): string {
    match c
    case Court => "court"
    case Property => "property"
    case Business => "business"
    case Government => "government"
  }

  /** The environment variable that supplies a category's key when none is passed. */
  function EnvVar(c: Category): string {
    match c
    case Court => "UNICOURT_API_KEY"
    case Property => "PROPMIX_API_KEY"
    case Business => "BUSINESS_API_KEY"
    case Government => "DATA_GOV_API_KEY"
  }

  /** The base URL each category client hands to `BaseAPIClient`. */
  function BaseUrl(c: Category): string {
    match c
    case Court => "https://api.unicourt.com"
    case Property => "https://api.bridgedataoutput.com"
    case Business => "https://api.business-data.gov"
    case Government => "https://api.data.gov"
  }

  /** The `**kwargs` passed through to a category client. */
  type Filters = map<string, Json>

  /** A category client's `search` and `get_record`; `Failure(msg)` is a raised `Exception` whose `str()` is `msg`. */
  datatype Behaviour = Behaviour(
    search: (string, Filters) -> Result<Payload, string>,
    getRecord: string -> Result<Payload, string>)

  /** One category client: its `BaseAPIClient` fields, its `api_type` and its behaviour. */
  datatype CategoryApi = CategoryApi(base: BaseClient, apiType: string, behaviour: Behaviour)

  /** The fields `PublicRecordClient.__init__` sets; none is changed afterwards. */
  datatype PublicRecordClient = PublicRecordClient(
    courtApiKey: Option<string>,
    propertyApiKey: Option<string>,
    businessApiKey: Option<string>,
    governmentApiKey: Option<string>,
    courtRecords: CategoryApi,
    propertyRecords: CategoryApi,
    businessRegistration: CategoryApi,
    governmentData: CategoryApi)

  function ApiKey(client: PublicRecordClient, c: Category): Option<string> {
    match c
    case Court => client.courtApiKey
    case Property => client.propertyApiKey
    case Business => client.businessApiKey
    case Government => client.governmentApiKey
  }

  function Api(client: PublicRecordClient, c: Category): CategoryApi {
    match c
    case Court => client.courtRecords
    case Property => client.propertyRecords
    case Business => client.businessRegistration
    case Government => client.governmentData
  }

  /** A category client built for `c` with `api_key=key`: tagged `Name(c)`, at `c`'s base URL. */
  predicate Wired(api: CategoryApi, c: Category, key: Option<string>) {
    api.apiType == Name(c) && api.base == BaseClient(key, Some(BaseUrl(c)))
  }

  /** Each category client carries its category's tag and the facade's key for it. */
  predicate WellFormed(client: PublicRecordClient) {
    && Wired(client.courtRecords, Court, client.courtApiKey)
    && Wired(client.propertyRecords, Property, client.propertyApiKey)
    && Wired(client.businessRegistration, Business, client.businessApiKey)
    && Wired(client.governmentData, Government, client.governmentApiKey)
  }

  /** The process environment, after any `.env` file has been loaded into it. */
  type Environment = map<string, string>

  /** `os.getenv(name)`. */
  function Getenv(env: Environment, name: string): (r: Option<string>)
    ensures r.Some? <==> name in env
    ensures r.Some? ==> r.value == env[name]
  {
    if name in env then Some(env[name]) else None
  }

  /** Python's `a or b` on optional strings. */
  function Or(a: Option<string>, b: Option<string>): (r: Option<string>)
    ensures Present(r) <==> Present(a) || Present(b)
    ensures Present(a) ==> r == a
    ensures !Present(a) ==> r == b
  {
    if Present(a) then a else b
  }

  /** A category client constructed with `api_key=key`. */
  function NewCategoryApi(c: Category, key: Option<string>, connect: (Category, Option<string>) -> Behaviour): CategoryApi {
    CategoryApi(BaseClient(key, Some(BaseUrl(c))), Name(c), connect(c, key))
  }

  /**
   * `PublicRecordClient(court_api_key, ...)`: each key is the argument when that is
   * non-empty and the environment's value otherwise, and each category client is built
   * with that key. `connect` stands for the category client classes.
   */
  function Create(
    courtApiKey: Option<string>,
    propertyApiKey: Option<string>,
    businessApiKey: Option<string>,
    governmentApiKey: Option<string>,
    env: Environment,
    connect: (Category, Option<string>) -> Behaviour): (client: PublicRecordClient)
    ensures WellFormed(client)
    ensures forall c :: Api(client, c).behaviour == connect(c, ApiKey(client, c))
    ensures Present(courtApiKey) ==> client.courtApiKey == courtApiKey
    ensures Present(propertyApiKey) ==> client.propertyApiKey == propertyApiKey
    ensures Present(businessApiKey) ==> client.businessApiKey == businessApiKey
    ensures Present(governmentApiKey) ==> client.governmentApiKey == governmentApiKey
    ensures !Present(courtApiKey) ==> client.courtApiKey == Getenv(env, EnvVar(Court))
    ensures !Present(propertyApiKey) ==> client.propertyApiKey == Getenv(env, EnvVar(Property))
    ensures !Present(businessApiKey) ==> client.businessApiKey == Getenv(env, EnvVar(Business))
    ensures !Present(governmentApiKey) ==> client.governmentApiKey == Getenv(env, EnvVar(Government))
  {
    var court := Or(courtApiKey, Getenv(env, EnvVar(Court)));
    var property := Or(propertyApiKey, Getenv(env, EnvVar(Property)));
    var business := Or(businessApiKey, Getenv(env, EnvVar(Business)));
    var government := Or(governmentApiKey, Getenv(env, EnvVar(Government)));
    PublicRecordClient(
      court, property, business, government,
      NewCategoryApi(Court, court, connect),
      NewCategoryApi(Property, property, connect),
      NewCategoryApi(Business, business, connect),
      NewCategoryApi(Government, government, connect))
  }

  /** The constructor argument that belongs to a category. */
  function Arg(c: Category, court: Option<string>, property: Option<string>, business: Option<string>, government: Option<string>): Option<string> {
    match c
    case Court => court
    case Property => property
    case Business => business
    case Government => government
  }

  // ---------------------------------------------------------------------------
  // search_all

  /** What one category contributes to `search_all`: its result, or `{'error': msg}`. */
  function Captured(outcome: Result<Payload, string>): Payload {
    match outcome
    case Success(p) => p
    case Failure(msg) => map["error" := JStr(msg)]
  }

  function Search(client: PublicRecordClient, c: Category, query: string, filters: Filters): Result<Payload, string> {
    Api(client, c).behaviour.search(query, filters)
  }

  /** The entries a fan-out over `cats` collects, one per category, in order. */
  function Fanout(client: PublicRecordClient, cats: seq<Category>, query: string, filters: Filters): (r: seq<(string, Payload)>)
    ensures |r| == |cats|
    ensures forall i :: 0 <= i < |cats| ==>
      r[i] == (Name(cats[i]), Captured(Search(client, cats[i], query, filters)))
  {
    if cats == [] then []
    else [(Name(cats[0]), Captured(Search(client, cats[0], query, filters)))] + Fanout(client, cats[1..], query, filters)
  }

  /**
   * `search_all`: asks each category client in turn, recording either its result or
   * its error under the category's name.
   */
  method SearchAll(client: PublicRecordClient, query: string, filters: Filters) returns (results: seq<(string, Payload)>)
    ensures results == Fanout(client, Categories, query, filters)
  {
    ghost var expected := Fanout(client, Categories, query, filters);
    assert expected == [expected[0], expected[1], expected[2], expected[3]];
    results := [];
    match client.courtRecords.behaviour.search(query, filters) {
      case Success(p) => results := results + [("court_records", p)];
      case Failure(e) => results := results + [("court_records", map["error" := JStr(e)])];
    }
    assert results[0] == expected[0] && |results| == 1;
    match client.propertyRecords.behaviour.search(query, filters) {
      case Success(p) => results := results + [("property_records", p)];
      case Failure(e) => results := results + [("property_records", map["error" := JStr(e)])];
    }
    assert results[1] == expected[1] && |results| == 2;
    match client.businessRegistration.behaviour.search(query, filters) {
      case Success(p) => results := results + [("business_registration", p)];
      case Failure(e) => results := results + [("business_registration", map["error" := JStr(e)])];
    }
    assert results[2] == expected[2] && |results| == 3;
    match client.governmentData.behaviour.search(query, filters) {
      case Success(p) => results := results + [("government_data", p)];
      case Failure(e) => results := results + [("government_data", map["error" := JStr(e)])];
    }
  }

  // ---------------------------------------------------------------------------
  // search_by_type and get_record_by_type

  /** What a single-category call raises: the `ValueError` for an unknown name, or the client's own exception. */
  datatype Failure = InvalidRecordType(message: string) | Raised(message: string)

  /** A category client's outcome, handed to the caller unchanged. */
  function Propagate(outcome: Result<Payload, string>): Result<Payload, Failure> {
    match outcome
    case Success(p) => Success(p)
    case Failure(msg) => Failure(Raised(msg))
  }

  const InvalidTypePrefix := "Invalid record type: "
  const ValidTypesHeading := ". Valid types: "
  const ValidTypesList := "court, property, business, government"

  /**
   * The `ValueError` message for an (already lower-cased) unknown record type: the
   * prefix, the input, the heading, then the list of short aliases.
   */
  function InvalidTypeMessage(recordType: string): (msg: string)
    ensures var n, k := |InvalidTypePrefix|, |recordType|;
      && |msg| == n + k + |ValidTypesHeading| + |ValidTypesList|
      && msg[..n] == InvalidTypePrefix
      && msg[n..n + k] == recordType
      && msg[n + k..|msg| - |ValidTypesList|] == ValidTypesHeading
      && msg[|msg| - |ValidTypesList|..] == ValidTypesList
  {
    InvalidTypePrefix + recordType + ". " + "Valid types: " + ValidTypesList
  }

  /** `search_by_type`: lower-case the name, pick the client it names, search it. */
  function SearchByType(client: PublicRecordClient, recordType: string, query: string, filters: Filters): (r: Result<Payload, Failure>)
    ensures forall c :: Denotes(c, Lower(recordType)) ==> r == Propagate(Search(client, c, query, filters))
    ensures (forall c :: !Denotes(c, Lower(recordType))) ==>
      r == Failure(InvalidRecordType(InvalidTypeMessage(Lower(recordType))))
  {
    var recordType := Lower(recordType);
    if recordType == "court" || recordType == "court_records" then
      assert Denotes(Court, recordType);
      DenotesUnique(Court, recordType);
      Propagate(client.courtRecords.behaviour.search(query, filters))
    else if recordType == "property" || recordType == "property_records" then
      assert Denotes(Property, recordType);
      DenotesUnique(Property, recordType);
      Propagate(client.propertyRecords.behaviour.search(query, filters))
    else if recordType == "business" || recordType == "business_registration" then
      assert Denotes(Business, recordType);
      DenotesUnique(Business, recordType);
      Propagate(client.businessRegistration.behaviour.search(query, filters))
    else if recordType == "government" || recordType == "government_data" then
      assert Denotes(Government, recordType);
      DenotesUnique(Government, recordType);
      Propagate(client.governmentData.behaviour.search(query, filters))
    else
      Failure(InvalidRecordType(InvalidTypeMessage(recordType)))
  }

  /** `get_record_by_type`: the same name resolution, then `get_record`. */
  function GetRecordByType(client: PublicRecordClient, recordType: string, recordId: string): (r: Result<Payload, Failure>)
    ensures forall c :: Denotes(c, Lower(recordType)) ==> r == Propagate(Api(client, c).behaviour.getRecord(recordId))
    ensures (forall c :: !Denotes(c, Lower(recordType))) ==>
      r == Failure(InvalidRecordType(InvalidTypeMessage(Lower(recordType))))
  {
    var recordType := Lower(recordType);
    if recordType == "court" || recordType == "court_records" then
      assert Denotes(Court, recordType);
      DenotesUnique(Court, recordType);
      Propagate(client.courtRecords.behaviour.getRecord(recordId))
    else if recordType == "property" || recordType == "property_records" then
      assert Denotes(Property, recordType);
      DenotesUnique(Property, recordType);
      Propagate(client.propertyRecords.behaviour.getRecord(recordId))
    else if recordType == "business" || recordType == "business_registration" then
      assert Denotes(Business, recordType);
      DenotesUnique(Business, recordType);
      Propagate(client.businessRegistration.behaviour.getRecord(recordId))
    else if recordType == "government" || recordType == "government_data" then
      assert Denotes(Government, recordType);
      DenotesUnique(Government, recordType);
      Propagate(client.governmentData.behaviour.getRecord(recordId))
    else
      Failure(InvalidRecordType(InvalidTypeMessage(recordType)))
  }

  /** `t` is the canonical name or the short alias of `c`. */
  predicate Denotes(c: Category, t: string) {
    t == Name(c) || t == Alias(c)
  }

  /** No string names two categories: the eight accepted names are pairwise distinct. */
  lemma DenotesUnique(c: Category, t: string)
    requires Denotes(c, t)
    ensures forall d :: Denotes(d, t) <==> d == c
  {
  }

  /** The first category of `cats` that `t` names. */
  function FirstNamed(cats: seq<Category>, t: string): (r: Option<Category>)
    ensures r.Some? ==> r.value in cats && Denotes(r.value, t)
    ensures r.None? ==> forall c :: c in cats ==> !Denotes(c, t)
  {
    if cats == [] then None
    else if Denotes(cats[0], t) then Some(cats[0])
    else FirstNamed(cats[1..], t)
  }

  /**
   * The reference resolution, one static mapping from every accepted name to its
   * category: the category whose name or alias the lower-cased input is.
   */
  function Resolve(recordType: string): (r: Option<Category>)
    ensures r.Some? ==> Denotes(r.value, Lower(recordType))
    ensures r.None? ==> forall c :: !Denotes(c, Lower(recordType))
  {
    FirstNamed(Categories, Lower(recordType))
  }

  // ---------------------------------------------------------------------------
  // get_available_apis and get_api_status

  /** `get_available_apis`. */
  function GetAvailableApis(): (r: seq<string>)
    ensures |r| == |Categories|
    ensures forall i :: 0 <= i < |r| ==> r[i] == Name(Categories[i])
  {
    ["court_records", "property_records", "business_registration", "government_data"]
  }

  /** `get_api_status`: whether each category's key is non-empty. */
  function GetApiStatus(client: PublicRecordClient): (r: seq<(string, bool)>)
    ensures |r| == |Categories|
    ensures forall i :: 0 <= i < |r| ==> r[i] == (Name(Categories[i]), Present(ApiKey(client, Categories[i])))
  {
    [ ("court_records", Present(client.courtApiKey)),
      ("property_records", Present(client.propertyApiKey)),
      ("business_registration", Present(client.businessApiKey)),
      ("government_data", Present(client.governmentApiKey)) ]
  }
}
