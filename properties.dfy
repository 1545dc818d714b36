/**
 * What `PublicRecordClient` promises its callers: a total, ordered and isolated
 * fan-out; one case-insensitive, alias-aware resolution shared by both single-category
 * operations; and a status report that agrees with the constructor's key precedence.
 */
module PublicRecordProperties {
  import opened Wrappers
  import opened Text
  import opened Base
  import opened PublicRecord

  /** The position of a category in `Categories`. */
  function Index(c: Category): (i: nat)
    ensures i < |Categories| && Categories[i] == c
  {
    match c
    case Court => 0
    case Property => 1
    case Business => 2
    case Government => 3
  }

  /** The client with one category's behaviour replaced and everything else kept. */
  function WithBehaviour(client: PublicRecordClient, c: Category, b: Behaviour): (r: PublicRecordClient)
    ensures Api(r, c).behaviour == b
    ensures forall d :: d != c ==> Api(r, d) == Api(client, d)
  {
    var api := Api(client, c).(behaviour := b);
    match c
    case Court => client.(courtRecords := api)
    case Property => client.(propertyRecords := api)
    case Business => client.(businessRegistration := api)
    case Government => client.(governmentData := api)
  }

  /** Every successful search of this category client carries its `api_type`. */
  ghost predicate Tagged(api: CategoryApi) {
    forall q, f :: api.behaviour.search(q, f).Success? ==>
      var p := api.behaviour.search(q, f).value;
      "api_type" in p && p["api_type"] == JStr(api.apiType)
  }

  // ---------------------------------------------------------------------------
  // search_all

  /**
   * `search_all` has one entry per category, keyed by the category names in the
   * order `get_available_apis` lists them, and `get_api_status` uses the same keys;
   * the keys are distinct, so no entry overwrites another.
   */
  lemma SearchAllKeys(client: PublicRecordClient, query: string, filters: Filters)
    ensures Names(Fanout(client, Categories, query, filters)) == GetAvailableApis()
    ensures Names(GetApiStatus(client)) == GetAvailableApis()
    ensures forall i, j :: 0 <= i < j < |GetAvailableApis()| ==> GetAvailableApis()[i] != GetAvailableApis()[j]
  {
  }

  /** Even when every category client fails, each category still gets its own `{'error': msg}` entry. */
  lemma SearchAllWhenAllFail(client: PublicRecordClient, query: string, filters: Filters)
    requires forall c :: Search(client, c, query, filters).Failure?
    ensures |Fanout(client, Categories, query, filters)| == 4
    ensures forall c ::
      Fanout(client, Categories, query, filters)[Index(c)] == (Name(c), map["error" := JStr(Search(client, c, query, filters).error)])
  {
  }

  /**
   * Isolation: replacing one category client (say, by one that fails) changes that
   * category's entry only, and that entry is exactly the new client's outcome.
   */
  lemma SearchAllIsolation(client: PublicRecordClient, c: Category, b: Behaviour, query: string, filters: Filters)
    ensures var before, after := Fanout(client, Categories, query, filters), Fanout(WithBehaviour(client, c, b), Categories, query, filters);
      && |after| == |before|
      && (forall i :: 0 <= i < |before| && i != Index(c) ==> after[i] == before[i])
      && after[Index(c)] == (Name(c), Captured(b.search(query, filters)))
  {
  }

  /** A failing client contributes `{'error': msg}` under its own name, whatever the others do. */
  lemma SearchAllOneFails(client: PublicRecordClient, c: Category, msg: string, query: string, filters: Filters)
    requires Search(client, c, query, filters) == Failure(msg)
    ensures Fanout(client, Categories, query, filters)[Index(c)] == (Name(c), map["error" := JStr(msg)])
  {
  }

  /**
   * When every category client tags its results with its `api_type`, every entry of
   * `search_all` is either an error entry or a result whose `api_type` is its key.
   */
  lemma SearchAllTagged(client: PublicRecordClient, query: string, filters: Filters)
    requires WellFormed(client)
    requires forall c :: Tagged(Api(client, c))
    ensures forall i :: 0 <= i < |Categories| ==>
      var (key, entry) := Fanout(client, Categories, query, filters)[i];
      ("api_type" in entry && entry["api_type"] == JStr(key)) || entry.Keys == {"error"}
  {
  }

  /**
   * The same for a freshly constructed facade: when each category's client class tags its
   * successful searches with its own `api_type`, so does every category client `Create` wires.
   */
  lemma SearchAllTaggedAfterCreate(
    courtApiKey: Option<string>, propertyApiKey: Option<string>,
    businessApiKey: Option<string>, governmentApiKey: Option<string>,
    env: Environment, connect: (Category, Option<string>) -> Behaviour, query: string, filters: Filters)
    requires forall c, key :: Tagged(NewCategoryApi(c, key, connect))
    ensures var client := Create(courtApiKey, propertyApiKey, businessApiKey, governmentApiKey, env, connect);
      forall i :: 0 <= i < |Categories| ==>
        var (key, entry) := Fanout(client, Categories, query, filters)[i];
        ("api_type" in entry && entry["api_type"] == JStr(key)) || entry.Keys == {"error"}
  {
    var client := Create(courtApiKey, propertyApiKey, businessApiKey, governmentApiKey, env, connect);
    forall c ensures Tagged(Api(client, c)) {
      assert Api(client, c) == NewCategoryApi(c, ApiKey(client, c), connect);
    }
    SearchAllTagged(client, query, filters);
  }

  // ---------------------------------------------------------------------------
  // Name resolution

  /** A lower-cased name resolves to a category exactly when it is that category's name or alias. */
  lemma ResolveIff(recordType: string, c: Category)
    ensures Resolve(recordType) == Some(c) <==> Denotes(c, Lower(recordType))
  {
  }

  /** Along the `if`/`elif` chain on the lower-cased name, the branch taken is the category `Resolve` picks. */
  lemma FollowChain(recordType: string)
    ensures var t := Lower(recordType);
      if t == "court" || t == "court_records" then Resolve(recordType) == Some(Court)
      else if t == "property" || t == "property_records" then Resolve(recordType) == Some(Property)
      else if t == "business" || t == "business_registration" then Resolve(recordType) == Some(Business)
      else if t == "government" || t == "government_data" then Resolve(recordType) == Some(Government)
      else Resolve(recordType) == None
  {
    var t := Lower(recordType);
    if t == "court" || t == "court_records" {
      ResolveIff(recordType, Court);
    } else if t == "property" || t == "property_records" {
      ResolveIff(recordType, Property);
    } else if t == "business" || t == "business_registration" {
      ResolveIff(recordType, Business);
    } else if t == "government" || t == "government_data" {
      ResolveIff(recordType, Government);
    } else {
      ResolveIff(recordType, Court);
      ResolveIff(recordType, Property);
      ResolveIff(recordType, Business);
      ResolveIff(recordType, Government);
    }
  }

  /** `search_by_type` routes exactly as the alias table says, and raises `ValueError` otherwise. */
  lemma SearchByTypeResolves(client: PublicRecordClient, recordType: string, query: string, filters: Filters)
    ensures SearchByType(client, recordType, query, filters) ==
      match Resolve(recordType)
      case Some(c) => Propagate(Search(client, c, query, filters))
      case None => Failure(InvalidRecordType(InvalidTypeMessage(Lower(recordType))))
  {
    FollowChain(recordType);
  }

  /** `get_record_by_type` routes exactly as the alias table says, and raises `ValueError` otherwise. */
  lemma GetRecordByTypeResolves(client: PublicRecordClient, recordType: string, recordId: string)
    ensures GetRecordByType(client, recordType, recordId) ==
      match Resolve(recordType)
      case Some(c) => Propagate(Api(client, c).behaviour.getRecord(recordId))
      case None => Failure(InvalidRecordType(InvalidTypeMessage(Lower(recordType))))
  {
    FollowChain(recordType);
  }

  /** Both single-category operations reject exactly the same names. */
  lemma SameRejections(client: PublicRecordClient, recordType: string, query: string, filters: Filters, recordId: string)
    ensures (SearchByType(client, recordType, query, filters).Failure? &&
             SearchByType(client, recordType, query, filters).error.InvalidRecordType?)
        <==> Resolve(recordType).None?
    ensures (GetRecordByType(client, recordType, recordId).Failure? &&
             GetRecordByType(client, recordType, recordId).error.InvalidRecordType?)
        <==> Resolve(recordType).None?
  {
    SearchByTypeResolves(client, recordType, query, filters);
    GetRecordByTypeResolves(client, recordType, recordId);
  }

  /** The short alias, the canonical name and the lower-cased forms of both reach the same client. */
  lemma AliasAndNameAgree(client: PublicRecordClient, c: Category, query: string, filters: Filters, recordId: string)
    ensures SearchByType(client, Alias(c), query, filters) == Propagate(Search(client, c, query, filters))
    ensures SearchByType(client, Name(c), query, filters) == Propagate(Search(client, c, query, filters))
    ensures GetRecordByType(client, Alias(c), recordId) == Propagate(Api(client, c).behaviour.getRecord(recordId))
    ensures GetRecordByType(client, Name(c), recordId) == Propagate(Api(client, c).behaviour.getRecord(recordId))
  {
    ResolvesNameAndAlias(c);
    SearchByTypeResolves(client, Alias(c), query, filters);
    SearchByTypeResolves(client, Name(c), query, filters);
    GetRecordByTypeResolves(client, Alias(c), recordId);
    GetRecordByTypeResolves(client, Name(c), recordId);
  }

  /** A category's short alias and canonical name both resolve to it. */
  lemma ResolvesNameAndAlias(c: Category)
    ensures Resolve(Alias(c)) == Some(c) && Resolve(Name(c)) == Some(c)
  {
    AliasIsLowercase(c);
    NameIsLowercase(c);
    ResolveIff(Alias(c), c);
    ResolveIff(Name(c), c);
  }

  lemma AliasIsLowercase(c: Category)
    ensures Lower(Alias(c)) == Alias(c)
  {
    var s := Alias(c);
    assert forall i :: 0 <= i < |s| ==> !IsUpper(s[i]);
    LowerOfLowercase(s);
  }

  lemma NameIsLowercase(c: Category)
    ensures Lower(Name(c)) == Name(c)
  {
    var s := Name(c);
    assert forall i :: 0 <= i < |s| ==> !IsUpper(s[i]);
    LowerOfLowercase(s);
  }

  /** Any casing of a name is routed, or rejected, exactly like any other casing of it. */
  lemma CaseInsensitive(client: PublicRecordClient, s: string, t: string, query: string, filters: Filters, recordId: string)
    requires EqualIgnoringCase(s, t)
    ensures SearchByType(client, s, query, filters) == SearchByType(client, t, query, filters)
    ensures GetRecordByType(client, s, recordId) == GetRecordByType(client, t, recordId)
  {
    LowerEqualIffEqualIgnoringCase(s, t);
  }

  /**
   * An unknown name raises `ValueError` with a message naming the lower-cased input and
   * listing the short aliases, whatever the category clients would have done.
   */
  lemma UnknownRejected(a: PublicRecordClient, b: PublicRecordClient, recordType: string, query: string, filters: Filters, recordId: string)
    requires forall c :: Lower(recordType) != Name(c) && Lower(recordType) != Alias(c)
    ensures SearchByType(a, recordType, query, filters) == SearchByType(b, recordType, query, filters)
    ensures SearchByType(a, recordType, query, filters) == GetRecordByType(b, recordType, recordId)
    ensures SearchByType(a, recordType, query, filters) == Failure(InvalidRecordType(InvalidTypeMessage(Lower(recordType))))
  {
    SearchByTypeResolves(a, recordType, query, filters);
    SearchByTypeResolves(b, recordType, query, filters);
    GetRecordByTypeResolves(b, recordType, recordId);
  }

  /** The message lists the four short aliases, in the facade's category order. */
  lemma ValidTypesAreAliases()
    ensures ValidTypesList == Alias(Court) + ", " + Alias(Property) + ", " + Alias(Business) + ", " + Alias(Government)
  {
  }

  // ---------------------------------------------------------------------------
  // Configuration status

  /**
   * A category reports `True` exactly when its constructor argument is non-empty or,
   * failing that, its environment variable is set to a non-empty value.
   */
  lemma StatusIffConfigured(
    courtApiKey: Option<string>, propertyApiKey: Option<string>,
    businessApiKey: Option<string>, governmentApiKey: Option<string>,
    env: Environment, connect: (Category, Option<string>) -> Behaviour)
    ensures var status := GetApiStatus(Create(courtApiKey, propertyApiKey, businessApiKey, governmentApiKey, env, connect));
      forall c :: status[Index(c)] ==
        (Name(c), Present(Arg(c, courtApiKey, propertyApiKey, businessApiKey, governmentApiKey)) || Present(Getenv(env, EnvVar(c))))
  {
  }

  /** A category client sends an `Authorization` header exactly when its category reports `True`. */
  lemma StatusMatchesAuthorization(client: PublicRecordClient, c: Category)
    requires WellFormed(client)
    ensures GetApiStatus(client)[Index(c)].1 <==> Present(Api(client, c).base.apiKey)
  {
  }
}
