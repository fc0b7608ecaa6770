# Blockchain architecture recommender, modelled in Dafny

This project models `recommend_solution` in `backend/app/recommender.py`. It is
the rule-based engine that turns a project description into an architecture
recommendation. The request carries an application scenario, technical
requirements (tps, latency, security level), a city size, a budget range and a
technology stack. The result has six fields: blockchain type, platform,
consensus, storage, network suggestion and a list of security advice.

Layout:

- `options.dfy`: module `Options`, an `Option` type for keys that may be absent from the request.
- `text.dfy`: module `Text`, ASCII lower-casing (`Lower`) and substring search (`Contains`). `Contains` is proved equal to a reference definition, `Occurs`, which says some offset holds a copy of the needle.
- `recommender.dfy`: module `Recommender`, which holds the data model and the decisions:
  - the request (`Query`, every key an `Option`);
  - the defaulted and lower-cased request (`Profile`, built by `Normalize`);
  - the six decision stages, in the source's order;
  - `Recommend`, which chains the stages.
- `recommender_facts.dfy`: module `RecommenderFacts`, with facts that span several decisions, and two worked examples.

The output fields are enumerations. Each enumeration's `Label()` gives the exact
text the source stores in its result dictionary. `Recommender.Texts` renders a
`Recommendation` as those six values (`RecommendationTexts`).
`Recommender.TextsInjective` shows that this rendering loses nothing. The
source branches on those texts (`platform == "Quorum"`).
`Recommender.LabelsDistinct` shows the labels are pairwise distinct, so
branching on constructors takes the same branches.
Because the outputs are enumerations, some facts hold by type alone. For
example, the consensus is always one of PBFT, RAFT, IBFT2 and PoS.

Where the code's behaviour may be surprising:

- Line 34 picks Hyperledger Besu only when a lower-cased stack item equals `"java"`. Items such as `"JavaScript"` or `"java-spring"` do not count. `RecommenderFacts.JavaIsMatchedAsWholeItem` shows this for `"JavaScript"`. The HTTP layer and the tables carry `technology_stack` as one string. If such a string reaches line 9, Python iterates it character by character, so every item has one letter and the request never gets Besu (`RecommenderFacts.SingleCharacterStackNeverBesu`).
- The security level is any text, not a three-value enumeration. On Quorum, every level other than `"medium"` gives IBFT2 (line 41). That includes `"low"` and misspellings.
- The budget is never checked for `min <= max`. Only its second element is read (line 16).

The check `blockchain_type != "Public"` on line 70 always holds where it is
reached: high security already forces the Consortium type.
`RecommenderFacts.ConfidentialAdviceIffHigh` states this.

## Model

| member | source | states |
|---|---|---|
| Text.Lower | backend/app/recommender.py:5-9 | lower-casing keeps the length, turns each ASCII capital into its small letter (code point + 32), keeps every other character and leaves no capital behind |
| Text.LowerIdempotent | backend/app/recommender.py:5-9 | lower-casing text that is already lower-cased changes nothing |
| Text.Contains | backend/app/recommender.py:14 | the executable `needle in hay` is true exactly when some offset of `hay` holds a copy of `needle` |
| Recommender.Normalize | backend/app/recommender.py:2-9 | absent keys take the defaults: tps 1000, latency 1, security "medium", city "medium", budget (0, 100000), scenario "", empty stack; given texts and every stack item are lower-cased; numbers and budget pass through |
| Recommender.LabelsDistinct | backend/app/recommender.py:23-42 | two chain types, two platforms or two network suggestions have the same text exactly when they are the same value |
| Recommender.TextsInjective | backend/app/recommender.py:11-76 | two recommendations render to the same six result texts exactly when they are equal |
| Recommender.ChooseType | backend/app/recommender.py:14-19 | Consortium exactly when the scenario mentions "multi-party" or "cross-organization" or security is "high"; Public exactly when not Consortium and the budget maximum exceeds 500000 and the city is "large"; Private otherwise |
| Recommender.ChoosePlatform | backend/app/recommender.py:23-34 | the platform belongs to the family of the chosen type; Fabric exactly for Consortium with high security or a compliance mention; Solana exactly for Public with tps > 5000 and latency < 1; Polygon exactly for Public with tps > 5000 and latency >= 1; Besu exactly for Private with an item equal to "java" |
| Recommender.ChooseConsensus | backend/app/recommender.py:38-45 | PBFT exactly for Fabric; IBFT2 exactly for Quorum with security other than "medium"; PoS exactly for the public platforms; RAFT otherwise |
| Recommender.ChooseStorage | backend/app/recommender.py:49-54 | off-chain/IPFS exactly when tps > 2000 or "big data" is mentioned, whatever else is mentioned; on-chain with Merkle proofs exactly when not that and audit, documents or compliance is mentioned |
| Recommender.NetworkSuggestion | backend/app/recommender.py:58-63 | the cross-organization suggestion exactly for Consortium, the validator-set suggestion exactly for Public, the trusted-nodes suggestion otherwise (Private) |
| Recommender.SecurityAdvice | backend/app/recommender.py:67-74 | at most three distinct items; empty exactly when security is not high and neither voting nor finance is mentioned; identity advice exactly for high security and then first; confidentiality advice exactly for high security off public chains and then second; audit advice exactly for voting or finance and then last |
| Recommender.Recommend | backend/app/recommender.py:1-76 | the platform is in the family of the type; PoS exactly on public chains; at most three advice items; confidentiality advice exactly when identity advice is given |
| RecommenderFacts.HighSecurityForcesFabric | backend/app/recommender.py:14-71 | high security gives Consortium, Hyperledger Fabric, PBFT and the cross-organization network suggestion, and the advice starts with identity then confidentiality |
| RecommenderFacts.ConfidentialAdviceIffHigh | backend/app/recommender.py:68-71 | the confidentiality advice appears exactly when security is high, so the not-Public test never fails |
| RecommenderFacts.ConsensusFromRequest | backend/app/recommender.py:14-45 | PBFT, IBFT2, PoS and RAFT each characterised by the type, the security level and a compliance mention |
| RecommenderFacts.PublicNeedsBudgetAndCity | backend/app/recommender.py:14-17 | a Public recommendation implies budget maximum > 500000, city "large", security not "high", and neither a multi-party nor a cross-organization mention |
| RecommenderFacts.FastPublicChainStoresOffChain | backend/app/recommender.py:29-50 | Solana or Polygon always comes with off-chain/IPFS storage |
| RecommenderFacts.NetworkDeterminedByType | backend/app/recommender.py:58-63 | two requests get the same network suggestion text exactly when they get the same chain type |
| RecommenderFacts.AdviceEmptyIff | backend/app/recommender.py:67-74 | the advice list is empty exactly when security is not high and the scenario mentions neither voting nor finance |
| RecommenderFacts.EmptyRequirementsLikeMissing | backend/app/recommender.py:2-5 | an empty requirements dictionary gives the same recommendation as a missing one |
| RecommenderFacts.EmptyRequestDefaults | backend/app/recommender.py:2-9 | the request with no keys gives Private, Custom Private Chain, RAFT, centralized storage, the private network suggestion and no advice, and renders to exactly those texts |
| RecommenderFacts.JavaIsMatchedAsWholeItem | backend/app/recommender.py:34 | stack ["JavaScript"] gives Custom Private Chain; stack ["Go", "JAVA"] gives Hyperledger Besu |
| RecommenderFacts.SingleCharacterStackNeverBesu | backend/app/recommender.py:9-34 | a stack whose items are all one character long (a stack string iterated letter by letter) never gives Hyperledger Besu |
| RecommenderFacts.RecommendIgnoresCase | backend/app/recommender.py:5-9 | lower-casing every text of a request beforehand changes neither the profile nor the recommendation |
| RecommenderFacts.ExtendingScenarioKeepsConsortium | backend/app/recommender.py:14-15 | adding text before or after the scenario of a Consortium request keeps it Consortium |
| RecommenderFacts.MultiPartyFinanceExample | backend/app/recommender.py:14-74 | "multi-party supply chain finance", medium security, small city, budget maximum 200000: Consortium, Quorum, RAFT, audit advice only |
| RecommenderFacts.PublicRetailExample | backend/app/recommender.py:14-54 | "public retail loyalty rewards", tps 8000, latency 0.5, large city, budget maximum 900000: Public, Solana, PoS, off-chain/IPFS storage, validator-set network suggestion |

## Left out

- backend/app/main.py is not part of this model. It is an HTTP endpoint that inserts a submission into a database.
- backend/app/models.py is not part of this model. It holds table declarations with no behaviour.
- backend/app/report_generator.py is not part of this model. It does template rendering and file output.
- The frontend files are not part of this model. They hold user-interface code and a network call.
- Run-time failures on badly typed requests are not modelled; the request is well typed and the budget is a pair. A text key holding `None` or a non-string fails at line 5, 6, 8 or 9. A `None` or non-number tps or latency, or a budget shorter than two, fails only when line 16, 29, 30 or 49 compares it. In every run that succeeds, the output does not depend on such an unread value, so a well-typed request loses nothing. Budget elements after the second are never read.
- Text.Lower: lower-cases ASCII letters only. Python's `str.lower()` also maps non-ASCII letters; full Unicode case mapping is not modelled.
- Numbers are modelled as exact reals, covering both the ints and floats a request may carry. Floating-point rounding, NaN and infinities are not modelled.
