/** The subscription status card: its own quota table, where -1 means unlimited, the usage
    bar percentage, the over-limit flag, the nine feature rows it renders and the status
    badge. The card looks the table up by a plan id and reads a status field; both are
    passed in as optional strings, since the subscription row the hook provides carries
    neither. */
module SubscriptionStatus {
  import opened Common
  import opened Plans

  datatype StatusFeature =
    | Outlines | Writings | Grammar | Summaries | Citations
    | Exports | AiAssistant | Templates | Plagiarism

  /** The nine features in the order the card lists them. */
  const StatusFeatures: seq<StatusFeature> :=
    [Outlines, Writings, Grammar, Summaries, Citations, Exports, AiAssistant, Templates, Plagiarism]

  function StatusKey(f: StatusFeature): string
  {
    match f
    case Outlines => "outlines"
    case Writings => "writings"
    case Grammar => "grammar"
    case Summaries => "summaries"
    case Citations => "citations"
    case Exports => "exports"
    case AiAssistant => "aiAssistant"
    case Templates => "templates"
    case Plagiarism => "plagiarism"
  }

  function StatusLabel(f: StatusFeature): string
  {
    match f
    case Outlines => "Tạo outline"
    case Writings => "Dự án viết"
    case Grammar => "Kiểm tra ngữ pháp"
    case Summaries => "Tóm tắt tài liệu"
    case Citations => "Quản lý trích dẫn"
    case Exports => "Export"
    case AiAssistant => "AI trợ lý"
    case Templates => "Mẫu có sẵn"
    case Plagiarism => "Kiểm tra đạo văn"
  }

  /** The unlimited sentinel of this table. */
  const Unlimited: int := -1

  /** The card's quota table `PLAN_LIMITS`. */
  function PlanLimit(t: Tier, f: StatusFeature): int
  {
    match t
    case Free =>
      (match f
       case Outlines => 3 case Writings => 1 case Grammar => 3 case Summaries => 1
       case Citations => 5 case Exports => 1 case AiAssistant => 5 case Templates => 0
       case Plagiarism => 0)
    case Student =>
      (match f
       case Outlines => 15 case Writings => 5 case Grammar => 20 case Summaries => 10
       case Citations => 50 case Exports => Unlimited case AiAssistant => 50 case Templates => 10
       case Plagiarism => 2)
    case Premium =>
      (match f
       case Plagiarism => 10
       case _ => Unlimited)
    case Institutional => Unlimited
  }

  predicate IsUnlimited(limit: int)
  {
    limit == Unlimited
  }

  /** Every entry is the sentinel or a non-negative count. */
  lemma PlanLimitShape(t: Tier, f: StatusFeature)
    ensures IsUnlimited(PlanLimit(t, f)) || PlanLimit(t, f) >= 0
  {
  }

  /** Order on limits reading the sentinel as infinity. */
  predicate AtMost(a: int, b: int)
  {
    IsUnlimited(b) || (!IsUnlimited(a) && a <= b)
  }

  /** With -1 read as infinity, a higher tier never has a smaller limit. */
  lemma PlanLimitMonotone(f: StatusFeature)
    ensures AtMost(PlanLimit(Free, f), PlanLimit(Student, f))
    ensures AtMost(PlanLimit(Student, f), PlanLimit(Premium, f))
    ensures AtMost(PlanLimit(Premium, f), PlanLimit(Institutional, f))
  {
  }

  /** Institutional is unlimited everywhere; premium everywhere but plagiarism, which is 10. */
  lemma TopTiersUnlimited(f: StatusFeature)
    ensures IsUnlimited(PlanLimit(Institutional, f))
    ensures IsUnlimited(PlanLimit(Premium, f)) <==> f != Plagiarism
    ensures PlanLimit(Premium, Plagiarism) == 10
  {
  }

  /** The floor of the exact quotient a / b, for a non-zero divisor. */
  function FloorDiv(a: int, b: int): (q: int)
    requires b != 0
    ensures b > 0 ==> q * b <= a < (q + 1) * b
    ensures b < 0 ==> q * b >= a > (q + 1) * b
  {
    if b > 0 then a / b else (-a) / (-b)
  }

  /** The bar percentage, in whole percent (the floor of the source's ratio): 0 for an
      unlimited feature, 100 once the limit is reached, otherwise the floor of
      100·used/limit, so never above 100. A limit of 0 with some use gives 100. */
  function UsagePercent(used: int, limit: int): (r: int)
    ensures IsUnlimited(limit) ==> r == 0
    ensures r <= 100
    ensures !IsUnlimited(limit) && limit > 0 && used >= limit ==> r == 100
    ensures limit > 0 && used < limit ==> r * limit <= used * 100 < (r + 1) * limit
    ensures limit == 0 && used > 0 ==> r == 100
    ensures 0 <= used && 0 <= limit ==> 0 <= r
  {
    if IsUnlimited(limit) then 0
    else if limit == 0 then (if used > 0 then 100 else 0)
    else
      var q := FloorDiv(used * 100, limit);
      QuotientBounds(used * 100, limit, q);
      if q < 100 then q else 100
  }

  /** What the floored quotient keeps of the bounds on its dividend. */
  lemma QuotientBounds(a: int, b: int, q: int)
    requires b > 0 ==> q * b <= a < (q + 1) * b
    ensures b > 0 && a >= 100 * b ==> q >= 100
    ensures b > 0 && a < 100 * b ==> q < 100
    ensures b > 0 && a >= 0 ==> q >= 0
  {
    if b > 0 {
      if a >= 100 * b {
        assert (q + 1 - 100) * b > 0;
      } else {
        assert (100 - q) * b > 0;
      }
      if a >= 0 {
        assert (q + 1) * b > 0;
      }
    }
  }

  /** `usage > limit && limit !== -1`: an unlimited feature is never over; otherwise the
      usage is over exactly when it exceeds the limit, and then its bar is full. */
  function IsOverLimit(used: int, limit: int): (r: bool)
    ensures IsUnlimited(limit) ==> !r
    ensures !IsUnlimited(limit) ==> (r <==> used > limit)
    ensures r && limit >= 0 ==> UsagePercent(used, limit) == 100
  {
    used > limit && !IsUnlimited(limit)
  }

  /** Over the table: an unlimited feature is never over its limit, and a feature over its
      limit shows a full bar. */
  lemma OverLimitFullBar(t: Tier, f: StatusFeature, used: int)
    ensures IsUnlimited(PlanLimit(t, f)) ==> !IsOverLimit(used, PlanLimit(t, f))
    ensures IsOverLimit(used, PlanLimit(t, f)) ==> UsagePercent(used, PlanLimit(t, f)) == 100
  {
    PlanLimitShape(t, f);
  }

  datatype FeatureRow = FeatureRow(key: string, caption: string, used: int, limit: int)

  /** `usage?.key || 0`. */
  function UsedOf(usage: map<string, int>, key: string): int
  {
    if key in usage then usage[key] else 0
  }

  /** The plan row found for the card's plan id; none for a missing or unknown id, where
      reading a limit from it throws. */
  function PlanLimitsFor(planId: Option<string>): (r: Option<Tier>)
    ensures r.Some? <==> planId.Some? && ParseTier(planId.value).Some?
    ensures r.Some? ==> TierId(r.value) == planId.value
  {
    if planId.None? then None else ParseTier(planId.value)
  }

  /** The nine feature rows, in card order, each with its key, label, use (0 when the usage
      has no entry) and the plan's limit; none when there is no plan row. */
  function FeatureRows(planId: Option<string>, usage: map<string, int>): (rows: Option<seq<FeatureRow>>)
    ensures rows.Some? <==> PlanLimitsFor(planId).Some?
    ensures rows.Some? ==> |rows.value| == 9 && forall i | 0 <= i < 9 ::
      var f := StatusFeatures[i];
      rows.value[i] == FeatureRow(StatusKey(f), StatusLabel(f), UsedOf(usage, StatusKey(f)),
                                  PlanLimit(PlanLimitsFor(planId).value, f))
  {
    match PlanLimitsFor(planId)
    case None => None
    case Some(t) =>
      Some(seq(9, i requires 0 <= i < 9 =>
        var f := StatusFeatures[i];
        FeatureRow(StatusKey(f), StatusLabel(f), UsedOf(usage, StatusKey(f)), PlanLimit(t, f))))
  }

  /** A feature the usage does not mention is shown as used 0. */
  lemma MissingUsageIsZero(planId: Option<string>, usage: map<string, int>, i: nat)
    requires i < 9 && StatusKey(StatusFeatures[i]) !in usage
    requires PlanLimitsFor(planId).Some?
    ensures FeatureRows(planId, usage).value[i].used == 0
  {
  }

  /** 'active' and 'expired' have their own badges; any other status, or none, is shown as
      not active. */
  function StatusBadge(status: Option<string>): (b: Badge)
    ensures status == Some("active") <==> b == Badge(Secondary, "Đang hoạt động")
    ensures status == Some("expired") <==> b == Badge(Destructive, "Đã hết hạn")
    ensures status != Some("active") && status != Some("expired") ==> b == Badge(Outline, "Không hoạt động")
  {
    if status == Some("active") then Badge(Secondary, "Đang hoạt động")
    else if status == Some("expired") then Badge(Destructive, "Đã hết hạn")
    else Badge(Outline, "Không hoạt động")
  }
}
