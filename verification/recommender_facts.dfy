/**
 * Facts about the whole recommendation that follow from several decisions
 * together: what high security forces, what the consensus means in terms of
 * the request, what storage a fast public chain gets, and how the result
 * reacts to letter case, to missing keys and to extra scenario text.
 */
module RecommenderFacts {
  import opened Options
  import opened Text
  import opened Recommender

  /** Line 14 first, then lines 24-25, 38-39, 58-59 and 68-71: a high security level decides type, platform, consensus, network and the head of the advice. */
  lemma HighSecurityForcesFabric(q: Query)
    requires Normalize(q).security == "high"
    ensures Recommend(q).blockchainType == Consortium
    ensures Recommend(q).platform == Fabric
    ensures Recommend(q).consensus == PBFT
    ensures Recommend(q).networkSuggestion == CrossOrganization
    ensures |Recommend(q).securityAdvice| >= 2
    ensures Recommend(q).securityAdvice[..2] == [IdentityManagement, ConfidentialTransactions]
  {
  }

  /**
   * The confidentiality advice is given exactly for high security: the test
   * `blockchain_type != "Public"` on line 70 never fails where it is reached.
   */
  lemma ConfidentialAdviceIffHigh(q: Query)
    ensures ConfidentialTransactions in Recommend(q).securityAdvice <==> Normalize(q).security == "high"
  {
  }

  /** The consensus stated directly in terms of the request, through the type and platform it rests on. */
  lemma ConsensusFromRequest(q: Query)
    ensures var p, r := Normalize(q), Recommend(q);
            && (r.consensus == PBFT <==>
                  r.blockchainType == Consortium && (p.security == "high" || Occurs("compliance", p.scenario)))
            && (r.consensus == IBFT2 <==>
                  r.blockchainType == Consortium && p.security != "high" && p.security != "medium"
                  && !Occurs("compliance", p.scenario))
            && (r.consensus == PoS <==> r.blockchainType == Public)
            && (r.consensus == RAFT <==>
                  r.blockchainType == Private
                  || (r.blockchainType == Consortium && p.security == "medium" && !Occurs("compliance", p.scenario)))
  {
  }

  /** A public chain needs a budget above 500000, a large city and no high security (lines 14-17). */
  lemma PublicNeedsBudgetAndCity(q: Query)
    requires Recommend(q).blockchainType == Public
    ensures Normalize(q).budget.high > 500000.0
    ensures Normalize(q).city == "large"
    ensures Normalize(q).security != "high"
    ensures !Occurs("multi-party", Normalize(q).scenario)
    ensures !Occurs("cross-organization", Normalize(q).scenario)
  {
  }

  /** Solana and Polygon need tps above 5000, which already puts the data off chain (lines 29 and 49). */
  lemma FastPublicChainStoresOffChain(q: Query)
    requires Recommend(q).platform in {Solana, Polygon}
    ensures Recommend(q).storage == OffChainHybrid
  {
  }

  /** Lines 58-63: two requests get the same network text exactly when they get the same chain type. */
  lemma NetworkDeterminedByType(q1: Query, q2: Query)
    ensures (Texts(Recommend(q1)).networkSuggestion == Texts(Recommend(q2)).networkSuggestion)
              <==> (Recommend(q1).blockchainType == Recommend(q2).blockchainType)
  {
    var r1, r2 := Recommend(q1), Recommend(q2);
    assert Texts(r1).networkSuggestion == r1.networkSuggestion.Label();
    assert Texts(r2).networkSuggestion == r2.networkSuggestion.Label();
    LabelsDistinct(r1.blockchainType, r2.blockchainType, r1.platform, r2.platform,
                   r1.networkSuggestion, r2.networkSuggestion);
  }

  /** Lines 67-74: no advice at all exactly when security is not high and neither voting nor finance is mentioned. */
  lemma AdviceEmptyIff(q: Query)
    ensures Recommend(q).securityAdvice == [] <==>
              var p := Normalize(q);
              p.security != "high" && !Occurs("voting", p.scenario) && !Occurs("finance", p.scenario)
  {
  }

  /** A `technical_requirements` dictionary with no keys behaves like a missing one (line 2 then lines 3-5). */
  lemma EmptyRequirementsLikeMissing(q: Query)
    requires q.technicalRequirements == Some(TechRequirements(None, None, None))
    ensures Recommend(q) == Recommend(q.(technicalRequirements := None))
  {
  }

  /** The request with every key missing: all defaults apply and lead to a private chain with no advice. */
  lemma EmptyRequestDefaults()
    ensures Recommend(Query(None, None, None, None, None)) ==
              Recommendation(Private, CustomPrivateChain, RAFT, CentralizedDb, TrustedNodes, [])
    ensures Texts(Recommend(Query(None, None, None, None, None))) ==
              RecommendationTexts(
                "Private",
                "Custom Private Chain",
                "RAFT",
                "Off-chain or centralized DB",
                "1\U{2013}3 trusted nodes with simplified consensus",
                [])
  {
    var p := Normalize(Query(None, None, None, None, None));
    assert p.scenario == "";
    assert p.stack == [];
  }

  /** Line 34 tests list membership: "JavaScript" lowers to an item other than "java", "JAVA" lowers to "java". */
  lemma JavaIsMatchedAsWholeItem()
    ensures Recommend(Query(None, None, None, None, Some(["JavaScript"]))).platform == CustomPrivateChain
    ensures Recommend(Query(None, None, None, None, Some(["Go", "JAVA"]))).platform == Besu
  {
    var p1 := Normalize(Query(None, None, None, None, Some(["JavaScript"])));
    assert p1.stack == [Lower("JavaScript")];
    assert "java" != Lower("JavaScript") by { assert |Lower("JavaScript")| == 10; }
    var p2 := Normalize(Query(None, None, None, None, Some(["Go", "JAVA"])));
    assert p2.stack[1] == Lower("JAVA") == "java";
  }

  /**
   * A stack given as one string reaches line 9 as its characters, one item
   * each. No one-character item equals "java", so such a request never gets
   * Hyperledger Besu.
   */
  lemma SingleCharacterStackNeverBesu(q: Query)
    requires q.technologyStack.Some?
    requires forall i :: 0 <= i < |q.technologyStack.value| ==> |q.technologyStack.value[i]| == 1
    ensures Recommend(q).platform != Besu
  {
  }

  /** Lower-cases an optional text. */
  function LowerOpt(o: Option<string>): Option<string> {
    match o
    case None => None
    case Some(s) => Some(Lower(s))
  }

  /** The request with every text field and stack item lower-cased beforehand. */
  function LowerTexts(q: Query): Query {
    Query(
      match q.technicalRequirements
      case None => None
      case Some(tr) => Some(tr.(securityLevel := LowerOpt(tr.securityLevel))),
      LowerOpt(q.citySize),
      q.budgetRange,
      LowerOpt(q.applicationScenarios),
      match q.technologyStack
      case None => None
      case Some(items) => Some(seq(|items|, i requires 0 <= i < |items| => Lower(items[i]))))
  }

  /** Lines 5-9 lower-case every text before any decision reads it, so the letter case of a request never matters. */
  lemma RecommendIgnoresCase(q: Query)
    ensures Normalize(LowerTexts(q)) == Normalize(q)
    ensures Recommend(LowerTexts(q)) == Recommend(q)
  {
    var tr := Requirements(q);
    if tr.securityLevel.Some? { LowerIdempotent(tr.securityLevel.value); }
    if q.citySize.Some? { LowerIdempotent(q.citySize.value); }
    if q.applicationScenarios.Some? { LowerIdempotent(q.applicationScenarios.value); }
    if q.technologyStack.Some? {
      var items := q.technologyStack.value;
      forall i | 0 <= i < |items| ensures Lower(Lower(items[i])) == Lower(items[i]) {
        LowerIdempotent(items[i]);
      }
    }
  }

  /** Line 14: more scenario text around a multi-party or cross-organization mention keeps the chain a consortium. */
  lemma ExtendingScenarioKeepsConsortium(q: Query, pre: string, post: string)
    requires Recommend(q).blockchainType == Consortium
    ensures Recommend(q.(applicationScenarios := Some(pre + q.applicationScenarios.GetOr("") + post))).blockchainType
              == Consortium
  {
    var s := q.applicationScenarios.GetOr("");
    var q' := q.(applicationScenarios := Some(pre + s + post));
    LowerConcat(pre + s, post);
    LowerConcat(pre, s);
    assert Normalize(q').scenario == Lower(pre) + Normalize(q).scenario + Lower(post);
    if Occurs("multi-party", Normalize(q).scenario) {
      OccursInContext("multi-party", Lower(pre), Normalize(q).scenario, Lower(post));
    }
    if Occurs("cross-organization", Normalize(q).scenario) {
      OccursInContext("cross-organization", Lower(pre), Normalize(q).scenario, Lower(post));
    }
  }

  /** Which keywords the first worked example's scenario holds. */
  lemma FinanceScenarioKeywords(scenario: string)
    requires scenario == "multi-party supply chain finance"
    ensures Occurs("multi-party", scenario)
    ensures Occurs("finance", scenario)
    ensures !Occurs("compliance", scenario)
  {
    assert OccursAt("multi-party", scenario, 0);
    assert scenario[25..32] == "finance";
    assert OccursAt("finance", scenario, 25);
    MissingCharExcludes("compliance", scenario, 1);
  }

  /**
   * First worked example: a multi-party finance scenario at medium security
   * gets Quorum with RAFT and the audit advice. The scenario is a parameter
   * pinned by the precondition so that the text stays symbolic in the proof.
   */
  lemma MultiPartyFinanceExample(scenario: string)
    requires scenario == "multi-party supply chain finance"
    ensures var r := Recommend(Query(
              Some(TechRequirements(None, None, Some("medium"))),
              Some("small"),
              Some(BudgetRange(0.0, 200000.0)),
              Some(scenario),
              None));
            r.blockchainType == Consortium && r.platform == Quorum && r.consensus == RAFT
            && r.securityAdvice == [AuditLogMultiSig]
  {
    FinanceScenarioKeywords(scenario);
    var q := Query(
      Some(TechRequirements(None, None, Some("medium"))),
      Some("small"),
      Some(BudgetRange(0.0, 200000.0)),
      Some(scenario),
      None);
    LowerKeepsLowerText(scenario);
    LowerKeepsLowerText("medium");
    var p := Normalize(q);
    assert p.scenario == scenario && p.security == "medium";
    assert ChooseType(p) == Consortium;
    assert ChoosePlatform(p, Consortium) == Quorum;
    assert SecurityAdvice(p, Consortium) == [AuditLogMultiSig];
  }

  /** Second worked example: a large public retail scenario with high throughput and low latency gets Solana with PoS. */
  lemma PublicRetailExample(scenario: string)
    requires scenario == "public retail loyalty rewards"
    ensures var r := Recommend(Query(
              Some(TechRequirements(Some(8000.0), Some(0.5), None)),
              Some("large"),
              Some(BudgetRange(0.0, 900000.0)),
              Some(scenario),
              None));
            r.blockchainType == Public && r.platform == Solana && r.consensus == PoS
            && r.storage == OffChainHybrid && r.networkSuggestion == ValidatorSet
  {
    LowerKeepsLowerText(scenario);
    LowerKeepsLowerText("large");
    MissingCharExcludes("multi-party", scenario, 0);
    MissingCharExcludes("cross-organization", scenario, 8);
  }
}
