/** The subscription hook: the per-tier quota table, the entitlement helpers computed from
    it, the usage map built from the usage rows of the current month, and the hook's state
    with its two loaders. The tier stored in a subscription row is kept as a string, as it
    arrives from the database, so that an unknown value can be represented. */
module SubscriptionHook {
  import opened Common
  import opened Plans

  datatype Feature =
    | OutlineGenerator | WritingProjects | GrammarCheck
    | DocumentSummarizer | CitationManager | PlagiarismCheck

  const AllFeatures: seq<Feature> :=
    [OutlineGenerator, WritingProjects, GrammarCheck, DocumentSummarizer, CitationManager, PlagiarismCheck]

  function FeatureKey(f: Feature): string
  {
    match f
    case OutlineGenerator => "outline_generator"
    case WritingProjects => "writing_projects"
    case GrammarCheck => "grammar_check"
    case DocumentSummarizer => "document_summarizer"
    case CitationManager => "citation_manager"
    case PlagiarismCheck => "plagiarism_check"
  }

  /** Reading a feature key: only the six keys of the table name a feature. */
  function ParseFeature(s: string): (r: Option<Feature>)
    ensures r.Some? ==> FeatureKey(r.value) == s
    ensures r.None? ==> forall f: Feature :: FeatureKey(f) != s
  {
    if s == "outline_generator" then Some(OutlineGenerator)
    else if s == "writing_projects" then Some(WritingProjects)
    else if s == "grammar_check" then Some(GrammarCheck)
    else if s == "document_summarizer" then Some(DocumentSummarizer)
    else if s == "citation_manager" then Some(CitationManager)
    else if s == "plagiarism_check" then Some(PlagiarismCheck)
    else None
  }

  /** The hook's quota table. 999999 is written for "practically unlimited" but is an
      ordinary number. */
  function TierLimit(t: Tier, f: Feature): nat
  {
    match t
    case Free =>
      (match f
       case OutlineGenerator => 3 case WritingProjects => 2 case GrammarCheck => 5
       case DocumentSummarizer => 0 case CitationManager => 0 case PlagiarismCheck => 0)
    case Student =>
      (match f
       case OutlineGenerator => 999999 case WritingProjects => 20 case GrammarCheck => 999999
       case DocumentSummarizer => 50 case CitationManager => 999999 case PlagiarismCheck => 10)
    case Premium => 999999
    case Institutional => 999999
  }

  /** A row of the subscribers table as the hook reads it. */
  datatype SubscriptionData = SubscriptionData(
    id: string,
    tier: string,
    billingCycle: Option<string>,
    subscriptionStart: Option<string>,
    subscriptionEnd: Option<string>,
    isActive: bool)

  /** A row of the usage_tracking query. */
  datatype UsageRow = UsageRow(featureType: string, usageCount: int)

  /** The limit for a feature key: the table entry when there is a subscription whose tier
      and the key are both known, and 0 in every other case. */
  function GetFeatureLimit(sub: Option<SubscriptionData>, featureType: string): (r: nat)
    ensures sub.None? ==> r == 0
    ensures (forall t: Tier :: sub.Some? ==> TierId(t) != sub.value.tier) ==> r == 0
    ensures (forall f: Feature :: FeatureKey(f) != featureType) ==> r == 0
    ensures forall t: Tier, f: Feature :: sub.Some? && TierId(t) == sub.value.tier && FeatureKey(f) == featureType
              ==> r == TierLimit(t, f)
  {
    if sub.None? then 0
    else
      match (ParseTier(sub.value.tier), ParseFeature(featureType))
      case (Some(t), Some(f)) =>
        FeatureKeyInjective();
        TierIdsInjective();
        TierLimit(t, f)
      case _ => 0
  }

  lemma FeatureKeyInjective()
    ensures forall f: Feature, g: Feature :: FeatureKey(f) == FeatureKey(g) ==> f == g
  {
    forall f: Feature, g: Feature | FeatureKey(f) == FeatureKey(g) ensures f == g {
      assert ParseFeature(FeatureKey(f)) == Some(f) by { match f case _ => }
      assert ParseFeature(FeatureKey(g)) == Some(g) by { match g case _ => }
    }
  }

  lemma TierIdsInjective()
    ensures forall t: Tier, u: Tier :: TierId(t) == TierId(u) ==> t == u
  {
    forall t: Tier, u: Tier | TierId(t) == TierId(u) ensures t == u {
      TierIdInjective(t, u);
    }
  }

  /** `getFeatureLimit(featureType) > 0`: access needs a subscription whose tier and the
      feature key are both known, and then a positive entry in the table. */
  function HasFeatureAccess(sub: Option<SubscriptionData>, featureType: string): (r: bool)
    ensures r ==> sub.Some? && ParseTier(sub.value.tier).Some? && ParseFeature(featureType).Some?
    ensures sub.Some? && ParseTier(sub.value.tier).Some? && ParseFeature(featureType).Some? ==>
      (r <==> TierLimit(ParseTier(sub.value.tier).value, ParseFeature(featureType).value) > 0)
  {
    GetFeatureLimit(sub, featureType) > 0
  }

  /** `usage[featureType] || 0`: a missing entry, like a zero one, counts as 0. */
  function Used(usage: map<string, int>, featureType: string): int
  {
    if featureType in usage then usage[featureType] else 0
  }

  /** Remaining quota: never negative, limit − used while used ≤ limit, and the whole limit
      when nothing has been recorded for the feature. */
  function GetRemainingUsage(sub: Option<SubscriptionData>, usage: map<string, int>, featureType: string): (r: nat)
    ensures r >= GetFeatureLimit(sub, featureType) - Used(usage, featureType)
    ensures var limit := GetFeatureLimit(sub, featureType);
      Used(usage, featureType) <= limit ==> r == limit - Used(usage, featureType)
    ensures Used(usage, featureType) >= GetFeatureLimit(sub, featureType) ==> r == 0
    ensures featureType !in usage ==> r == GetFeatureLimit(sub, featureType)
  {
    var d := GetFeatureLimit(sub, featureType) - Used(usage, featureType);
    if d > 0 then d else 0
  }

  /** More use never leaves more quota. */
  lemma RemainingAntitone(sub: Option<SubscriptionData>, usage: map<string, int>, featureType: string, more: int)
    requires more >= Used(usage, featureType)
    ensures GetRemainingUsage(sub, usage[featureType := more], featureType) <= GetRemainingUsage(sub, usage, featureType)
  {
  }

  /** Access is exactly a positive limit; with the free tier there is no access to the
      summarizer, the citation manager or the plagiarism check. */
  lemma FreeTierAccess(sub: SubscriptionData)
    requires sub.tier == "free"
    ensures !HasFeatureAccess(Some(sub), "document_summarizer")
    ensures !HasFeatureAccess(Some(sub), "citation_manager")
    ensures !HasFeatureAccess(Some(sub), "plagiarism_check")
    ensures HasFeatureAccess(Some(sub), "outline_generator")
    ensures HasFeatureAccess(Some(sub), "writing_projects")
    ensures HasFeatureAccess(Some(sub), "grammar_check")
  {
    assert TierId(Free) == sub.tier;
    assert FeatureKey(DocumentSummarizer) == "document_summarizer";
    assert FeatureKey(CitationManager) == "citation_manager";
    assert FeatureKey(PlagiarismCheck) == "plagiarism_check";
    assert FeatureKey(OutlineGenerator) == "outline_generator";
    assert FeatureKey(WritingProjects) == "writing_projects";
    assert FeatureKey(GrammarCheck) == "grammar_check";
  }

  /** Every feature's limit grows with the tier: free ≤ student ≤ premium = institutional. */
  lemma LimitsMonotone(f: Feature)
    ensures TierLimit(Free, f) <= TierLimit(Student, f) <= TierLimit(Premium, f)
    ensures TierLimit(Premium, f) == TierLimit(Institutional, f)
  {
  }

  /** With the premium tier the remaining quota is 999999 − used, clamped at 0: the large
      number is not treated as "unlimited". */
  lemma PremiumRemaining(sub: SubscriptionData, usage: map<string, int>, f: Feature)
    requires sub.tier == "premium"
    ensures GetRemainingUsage(Some(sub), usage, FeatureKey(f))
              == if Used(usage, FeatureKey(f)) <= 999999 then 999999 - Used(usage, FeatureKey(f)) else 0
  {
    assert TierId(Premium) == sub.tier;
  }

  function UsagePairs(rows: seq<UsageRow>): (ps: seq<(string, int)>)
    ensures |ps| == |rows|
    ensures forall i | 0 <= i < |rows| :: ps[i] == (rows[i].featureType, rows[i].usageCount)
  {
    seq(|rows|, i requires 0 <= i < |rows| => (rows[i].featureType, rows[i].usageCount))
  }

  /** The usage map assigned one row at a time. */
  function UsageMap(rows: seq<UsageRow>): map<string, int>
  {
    MapOfPairs(UsagePairs(rows))
  }

  /** A feature type is in the usage map exactly when some row carries it. */
  lemma UsageMapKeys(rows: seq<UsageRow>, featureType: string)
    ensures featureType in UsageMap(rows) <==> exists i :: 0 <= i < |rows| && rows[i].featureType == featureType
  {
    var ps := UsagePairs(rows);
    MapOfPairsKeys(ps, featureType);
    if exists i :: 0 <= i < |rows| && rows[i].featureType == featureType {
      var i :| 0 <= i < |rows| && rows[i].featureType == featureType;
      assert ps[i].0 == featureType;
    }
  }

  /** The count stored for a type is that of the last row with that type. */
  lemma UsageMapLastRow(rows: seq<UsageRow>, i: nat)
    requires i < |rows|
    requires forall j | i < j < |rows| :: rows[j].featureType != rows[i].featureType
    ensures rows[i].featureType in UsageMap(rows)
    ensures UsageMap(rows)[rows[i].featureType] == rows[i].usageCount
  {
    var ps := UsagePairs(rows);
    forall j | i < j < |ps| ensures ps[j].0 != ps[i].0 {
      assert ps[j].0 == rows[j].featureType;
    }
    MapOfPairsLastWins(ps, i);
  }

  /** The fail-closed feature check: allowed only with a user, a subscription and an RPC
      answer of true; an RPC error denies. */
  function CheckFeatureLimit(hasUser: bool, sub: Option<SubscriptionData>, rpc: Outcome<bool>): (r: bool)
    ensures r ==> hasUser && sub.Some? && rpc == Succeeded(true)
    ensures hasUser && sub.Some? && rpc == Succeeded(true) ==> r
  {
    if !hasUser || sub.None? then false
    else
      match rpc
      case Succeeded(data) => data
      case Failed => false
  }

  /** The hook's state: the subscription row, the usage map and the loading flag. */
  /** The row inserted for a user without a subscriber row. */
  datatype NewSubscriber = NewSubscriber(userId: string, email: string, tier: string, isActive: bool)

  class SubscriptionState {
    var subscription: Option<SubscriptionData>
    var usage: map<string, int>
    var loading: bool

    constructor()
      ensures subscription == None && usage == map[] && loading
    {
      subscription := None;
      usage := map[];
      loading := true;
    }

    /** Load the subscriber row; when there is none, insert a free, active one for the
        user (with `user.email || ''`) and keep the row the insert returns. `query` is the
        select, `insert` the reply to the insert; a failure of either leaves the
        subscription as it was. */
    method FetchSubscription(hasUser: bool, userId: string, userEmail: Option<string>,
                             query: Outcome<Option<SubscriptionData>>, insert: Outcome<SubscriptionData>)
      returns (inserted: Option<NewSubscriber>)
      modifies this
      ensures inserted.Some? <==> hasUser && query == Succeeded(None)
      ensures inserted.Some? ==>
        inserted.value == NewSubscriber(userId, if userEmail.Some? then userEmail.value else "", "free", true)
      ensures !hasUser ==> subscription == None
      ensures hasUser && query.Succeeded? && query.data.Some? ==> subscription == query.data
      ensures hasUser && query == Succeeded(None) && insert.Succeeded? ==> subscription == Some(insert.data)
      ensures (hasUser && (query.Failed? || (query == Succeeded(None) && insert.Failed?)))
                ==> subscription == old(subscription)
      ensures !loading && usage == old(usage)
    {
      inserted := None;
      if !hasUser {
        subscription := None;
        loading := false;
        return;
      }
      match query {
        case Failed =>
        case Succeeded(data) =>
          if data.Some? {
            subscription := data;
          } else {
            inserted := Some(NewSubscriber(userId, if userEmail.Some? then userEmail.value else "", "free", true));
            if insert.Succeeded? {
              subscription := Some(insert.data);
            }
          }
      }
      loading := false;
    }

    /** Load this month's usage rows and rebuild the usage map from them, the last row of a
        type winning; `data?.forEach` treats a null result as no rows. Without a user, or on
        a query error, the map is unchanged. */
    method FetchUsage(hasUser: bool, rows: Outcome<Option<seq<UsageRow>>>)
      modifies this
      ensures !hasUser || rows.Failed? ==> usage == old(usage)
      ensures hasUser && rows == Succeeded(None) ==> usage == map[]
      ensures hasUser && rows.Succeeded? && rows.data.Some? ==> usage == UsageMap(rows.data.value)
      ensures subscription == old(subscription) && loading == old(loading)
    {
      if !hasUser || rows.Failed? {
        return;
      }
      var rebuilt := map[];
      if rows.data.Some? {
        rebuilt := FillMap(UsagePairs(rows.data.value));
      }
      usage := rebuilt;
    }
  }
}
