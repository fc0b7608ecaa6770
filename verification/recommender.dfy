/**
 * The rule-based architecture recommender of backend/app/recommender.py:
 * a request (scenario text, throughput, latency, security level, city size,
 * budget, technology stack) is defaulted and lower-cased into a `Profile`,
 * and six decisions are taken from it in order. The chain type is decided
 * first, the platform from the type, the consensus from the platform.
 * Storage, network and security advice follow.
 */
module Recommender {
  import opened Options
  import opened Text

  // ---------------------------------------------------------------------
  // Input: the request dictionary, every key optional
  // ---------------------------------------------------------------------

  /** The `technical_requirements` sub-dictionary. Numbers are reals because the request may carry ints or floats. */
  datatype TechRequirements = TechRequirements(
    tps: Option<real>,
    latency: Option<real>,
    securityLevel: Option<string>)

  /** `budget_range` as the pair the recommender indexes; only `high` (element 1) is ever read. */
  datatype BudgetRange = BudgetRange(low: real, high: real)

  datatype Query = Query(
    technicalRequirements: Option<TechRequirements>,
    citySize: Option<string>,
    budgetRange: Option<BudgetRange>,
    applicationScenarios: Option<string>,
    technologyStack: Option<seq<string>>)

  /** The request after defaulting and lower-casing: what every decision reads. */
  datatype Profile = Profile(
    tps: real,
    latency: real,
    security: string,
    city: string,
    budget: BudgetRange,
    scenario: string,
    stack: seq<string>)

  const DefaultTps: real := 1000.0
  const DefaultLatency: real := 1.0
  const DefaultSecurity: string := "medium"
  const DefaultCity: string := "medium"
  const DefaultBudget: BudgetRange := BudgetRange(0.0, 100000.0)

  /** The requirements dictionary, an empty one when the key is absent. */
  function Requirements(q: Query): TechRequirements {
    q.technicalRequirements.GetOr(TechRequirements(None, None, None))
  }

  /** Lines 2-9: missing keys take their defaults; text fields and every stack item are lower-cased. */
  function Normalize(q: Query): (p: Profile)
    ensures Requirements(q).tps.None? ==> p.tps == DefaultTps
    ensures Requirements(q).tps.Some? ==> p.tps == Requirements(q).tps.value
    ensures Requirements(q).latency.None? ==> p.latency == DefaultLatency
    ensures Requirements(q).latency.Some? ==> p.latency == Requirements(q).latency.value
    ensures Requirements(q).securityLevel.None? ==> p.security == DefaultSecurity
    ensures Requirements(q).securityLevel.Some? ==> p.security == Lower(Requirements(q).securityLevel.value)
    ensures q.citySize.None? ==> p.city == DefaultCity
    ensures q.citySize.Some? ==> p.city == Lower(q.citySize.value)
    ensures q.budgetRange.None? ==> p.budget == DefaultBudget
    ensures q.budgetRange.Some? ==> p.budget == q.budgetRange.value
    ensures q.applicationScenarios.None? ==> p.scenario == ""
    ensures q.applicationScenarios.Some? ==> p.scenario == Lower(q.applicationScenarios.value)
    ensures q.technologyStack.None? ==> p.stack == []
    ensures q.technologyStack.Some? ==> |p.stack| == |q.technologyStack.value|
    ensures forall i :: 0 <= i < |p.stack| ==> p.stack[i] == Lower(q.technologyStack.value[i])
    ensures IsLowerText(p.security) && IsLowerText(p.city) && IsLowerText(p.scenario)
    ensures forall i :: 0 <= i < |p.stack| ==> IsLowerText(p.stack[i])
  {
    var tr := Requirements(q);
    var items := q.technologyStack.GetOr([]);
    LowerKeepsLowerText(DefaultSecurity);
    LowerKeepsLowerText(DefaultCity);
    Profile(
      tr.tps.GetOr(DefaultTps),
      tr.latency.GetOr(DefaultLatency),
      Lower(tr.securityLevel.GetOr(DefaultSecurity)),
      Lower(q.citySize.GetOr(DefaultCity)),
      q.budgetRange.GetOr(DefaultBudget),
      Lower(q.applicationScenarios.GetOr("")),
      seq(|items|, i requires 0 <= i < |items| => Lower(items[i])))
  }

  // ---------------------------------------------------------------------
  // Output: the six fields of the recommendation dictionary
  // ---------------------------------------------------------------------

  datatype ChainType = Consortium | Public | Private {
    /** The text stored under `blockchain_type`. */
    function Label(): string {
      match this
      case Consortium => "Consortium"
      case Public => "Public"
      case Private => "Private"
    }
  }

  datatype Platform = Fabric | Quorum | Solana | Polygon | Ethereum | Besu | CustomPrivateChain {
    /** The text stored under `platform`. */
    function Label(): string {
      match this
      case Fabric => "Hyperledger Fabric"
      case Quorum => "Quorum"
      case Solana => "Solana"
      case Polygon => "Polygon"
      case Ethereum => "Ethereum"
      case Besu => "Hyperledger Besu"
      case CustomPrivateChain => "Custom Private Chain"
    }
  }

  datatype Consensus = PBFT | RAFT | IBFT2 | PoS {
    /** The text stored under `consensus`. */
    function Label(): string {
      match this
      case PBFT => "PBFT"
      case RAFT => "RAFT"
      case IBFT2 => "IBFT2"
      case PoS => "PoS"
    }
  }

  datatype Storage = OffChainHybrid | OnChainMerkle | CentralizedDb {
    /** The text stored under `storage`. */
    function Label(): string {
      match this
      case OffChainHybrid => "Off-chain with IPFS or hybrid"
      case OnChainMerkle => "On-chain with Merkle proofs"
      case CentralizedDb => "Off-chain or centralized DB"
    }
  }

  datatype Advice = IdentityManagement | ConfidentialTransactions | AuditLogMultiSig {
    /** The text appended to `security_advice`. */
    function Label(): string {
      match this
      case IdentityManagement => "Enable Identity Management (CA / MSP)"
      case ConfidentialTransactions => "Use Confidential Transactions or ZKP modules"
      case AuditLogMultiSig => "Enable audit log & multi-sig controls"
    }
  }

  datatype Network = CrossOrganization | ValidatorSet | TrustedNodes {
    /** The text stored under `network_suggestion`. */
    function Label(): string {
      match this
      case CrossOrganization => "4\U{2013}10 nodes across organizations with endorsement policies"
      case ValidatorSet => "Participate in validator set or use Layer 2 for performance"
      case TrustedNodes => "1\U{2013}3 trusted nodes with simplified consensus"
    }
  }

  datatype Recommendation = Recommendation(
    blockchainType: ChainType,
    platform: Platform,
    consensus: Consensus,
    storage: Storage,
    networkSuggestion: Network,
    securityAdvice: seq<Advice>)

  /** The dictionary `recommend_solution` returns: six values under six keys, five texts and a list of texts. */
  datatype RecommendationTexts = RecommendationTexts(
    blockchainType: string,
    platform: string,
    consensus: string,
    storage: string,
    networkSuggestion: string,
    securityAdvice: seq<string>)

  /** Every advice item rendered as its text, in order. */
  function AdviceTexts(a: seq<Advice>): (r: seq<string>)
    ensures |r| == |a|
    ensures forall i :: 0 <= i < |a| ==> r[i] == a[i].Label()
  {
    seq(|a|, i requires 0 <= i < |a| => a[i].Label())
  }

  /** The recommendation as the texts of the source's result dictionary. */
  function Texts(r: Recommendation): RecommendationTexts {
    RecommendationTexts(
      r.blockchainType.Label(),
      r.platform.Label(),
      r.consensus.Label(),
      r.storage.Label(),
      r.networkSuggestion.Label(),
      AdviceTexts(r.securityAdvice))
  }

  /** The chain type a platform is offered for: the three platform families. */
  function Family(pl: Platform): ChainType {
    match pl
    case Fabric | Quorum => Consortium
    case Solana | Polygon | Ethereum => Public
    case Besu | CustomPrivateChain => Private
  }

  /**
   * The source branches on the texts of the type and of the platform; the
   * labels are pairwise distinct, so branching on the constructors instead
   * takes the same branches. The network texts are distinct as well.
   */
  lemma LabelsDistinct(t1: ChainType, t2: ChainType, pl1: Platform, pl2: Platform, n1: Network, n2: Network)
    ensures t1.Label() == t2.Label() <==> t1 == t2
    ensures pl1.Label() == pl2.Label() <==> pl1 == pl2
    ensures n1.Label() == n2.Label() <==> n1 == n2
  {
  }

  /** Rendering as texts loses nothing: two recommendations with the same texts are the same recommendation. */
  lemma TextsInjective(r1: Recommendation, r2: Recommendation)
    ensures Texts(r1) == Texts(r2) <==> r1 == r2
  {
    if Texts(r1) == Texts(r2) {
      var a1, a2 := r1.securityAdvice, r2.securityAdvice;
      assert |a1| == |AdviceTexts(a1)| == |AdviceTexts(a2)| == |a2|;
      forall i | 0 <= i < |a1| ensures a1[i] == a2[i] {
        assert AdviceTexts(a1)[i] == AdviceTexts(a2)[i];
      }
    }
  }

  // ---------------------------------------------------------------------
  // The six decisions
  // ---------------------------------------------------------------------

  /** Lines 14-19. */
  function ChooseType(p: Profile): (t: ChainType)
    ensures t == Consortium <==>
              Occurs("multi-party", p.scenario) || Occurs("cross-organization", p.scenario) || p.security == "high"
    ensures t == Public <==> t != Consortium && p.budget.high > 500000.0 && p.city == "large"
  {
    if Contains("multi-party", p.scenario) || Contains("cross-organization", p.scenario) || p.security == "high" then
      Consortium
    else if p.budget.high > 500000.0 && p.city == "large" then
      Public
    else
      Private
  }

  /** Lines 23-34: a platform from the family of the chosen type. */
  function ChoosePlatform(p: Profile, t: ChainType): (pl: Platform)
    ensures Family(pl) == t
    ensures pl == Fabric <==> t == Consortium && (p.security == "high" || Occurs("compliance", p.scenario))
    ensures pl == Solana <==> t == Public && p.tps > 5000.0 && p.latency < 1.0
    ensures pl == Polygon <==> t == Public && p.tps > 5000.0 && p.latency >= 1.0
    ensures pl == Besu <==> t == Private && exists i :: 0 <= i < |p.stack| && p.stack[i] == "java"
  {
    match t
    case Consortium =>
      if p.security == "high" || Contains("compliance", p.scenario) then Fabric else Quorum
    case Public =>
      if p.tps > 5000.0 then (if p.latency < 1.0 then Solana else Polygon) else Ethereum
    case Private =>
      if "java" in p.stack then Besu else CustomPrivateChain
  }

  /** Lines 38-45: consensus from the platform, with the security level deciding only for Quorum. */
  function ChooseConsensus(pl: Platform, security: string): (c: Consensus)
    ensures c == PBFT <==> pl == Fabric
    ensures c == IBFT2 <==> pl == Quorum && security != "medium"
    ensures c == PoS <==> Family(pl) == Public
  {
    if pl == Fabric then PBFT
    else if pl == Quorum then (if security == "medium" then RAFT else IBFT2)
    else if pl in [Solana, Polygon, Ethereum] then PoS
    else RAFT
  }

  /** Lines 49-54: throughput or big data wins over the audit keywords. */
  function ChooseStorage(p: Profile): (s: Storage)
    ensures s == OffChainHybrid <==> Occurs("big data", p.scenario) || p.tps > 2000.0
    ensures s == OnChainMerkle <==>
              s != OffChainHybrid &&
              (Occurs("audit", p.scenario) || Occurs("documents", p.scenario) || Occurs("compliance", p.scenario))
  {
    if Contains("big data", p.scenario) || p.tps > 2000.0 then
      OffChainHybrid
    else if Contains("audit", p.scenario) || Contains("documents", p.scenario) || Contains("compliance", p.scenario) then
      OnChainMerkle
    else
      CentralizedDb
  }

  /** Lines 58-63: a fixed suggestion per chain type. */
  function NetworkSuggestion(t: ChainType): (n: Network)
    ensures n == CrossOrganization <==> t == Consortium
    ensures n == ValidatorSet <==> t == Public
  {
    match t
    case Consortium => CrossOrganization
    case Public => ValidatorSet
    case Private => TrustedNodes
  }

  /** Lines 67-74: identity (and, off public chains, confidentiality) advice for high security, then audit advice. */
  function SecurityAdvice(p: Profile, t: ChainType): (a: seq<Advice>)
    ensures |a| <= 3
    ensures a == [] <==>
              p.security != "high" && !Occurs("voting", p.scenario) && !Occurs("finance", p.scenario)
    ensures IdentityManagement in a <==> p.security == "high"
    ensures ConfidentialTransactions in a <==> p.security == "high" && t != Public
    ensures AuditLogMultiSig in a <==> Occurs("voting", p.scenario) || Occurs("finance", p.scenario)
    ensures p.security == "high" ==> a[0] == IdentityManagement
    ensures p.security == "high" && t != Public ==> a[1] == ConfidentialTransactions
    ensures AuditLogMultiSig in a ==> a[|a| - 1] == AuditLogMultiSig
    ensures forall i, j :: 0 <= i < j < |a| ==> a[i] != a[j]
  {
    var identity :=
      if p.security == "high" then
        [IdentityManagement] + (if t != Public then [ConfidentialTransactions] else [])
      else [];
    identity + (if Contains("voting", p.scenario) || Contains("finance", p.scenario) then [AuditLogMultiSig] else [])
  }

  /** `recommend_solution`: the six decisions, each reading the ones before it. */
  function Recommend(q: Query): (r: Recommendation)
    ensures Family(r.platform) == r.blockchainType
    ensures r.consensus == PoS <==> r.blockchainType == Public
    ensures |r.securityAdvice| <= 3
    ensures ConfidentialTransactions in r.securityAdvice <==> IdentityManagement in r.securityAdvice
  {
    var p := Normalize(q);
    var t := ChooseType(p);
    var pl := ChoosePlatform(p, t);
    Recommendation(
      t,
      pl,
      ChooseConsensus(pl, p.security),
      ChooseStorage(p),
      NetworkSuggestion(t),
      SecurityAdvice(p, t))
  }
}
