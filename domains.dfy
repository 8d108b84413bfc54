/**
 * The application domains the console can be configured for, each with its
 * irreversibility threshold, recommended waiting time tau, icon, typical
 * scenarios and, for some, the actions that are always critical.
 */
module Domains {
  import opened Wrappers
  import Text

  datatype DomainConfig = DomainConfig(
    description: string,
    irreversibleThreshold: real,
    defaultTau: real,
    riskTolerance: string,
    icon: string,
    typicalScenarios: seq<string>,
    /** Present only for the domains that list critical actions. */
    criticalActions: Option<seq<string>>)

  const Unified: string := "Unified"

  /** The critical actions of the medical, legal, driving and factory domains. */
  const MedicalCritical: seq<string> := ["PRESCRIBE_SURGERY", "MODIFY_CRITICAL_DOSE", "STOP_LIFE_SUPPORT"]
  const LegalCritical: seq<string> := ["SIGN_CONTRACT", "VALIDATE_AGREEMENT", "EXECUTE_WILL"]
  const DriveCritical: seq<string> := ["EMERGENCY_BRAKE", "LANE_CHANGE_URGENT", "OVERTAKE"]
  const FactoryCritical: seq<string> := ["EMERGENCY_SHUTDOWN", "CHANGE_RECIPE", "START_MAINTENANCE"]

  /** `DOMAIN_CONFIGS`. */
  const DomainConfigs: map<string, DomainConfig> := map[
    "Trading (ERC-8004)" := DomainConfig(
      "Trading de cryptomonnaies avec standard ERC-8004",
      0.7, 10.0, "medium", "💰",
      ["Achat/Vente de BTC", "Arbitrage cross-exchange", "Position leverage"],
      None),
    "Bank-Robo" := DomainConfig(
      "Conseiller bancaire robotisé pour gestion de patrimoine",
      0.9, 15.0, "low", "🏦",
      ["Virement important", "Ouverture de crédit", "Placement long terme"],
      None),
    "Blockchain / Intents" := DomainConfig(
      "Exécution d'intents blockchain (smart contracts)",
      1.0, 5.0, "high", "⛓️",
      ["Déploiement de contrat", "Transaction on-chain", "Stake/Unstake"],
      None),
    "Medical-AI (Santé)" := DomainConfig(
      "Aide à la décision médicale (diagnostic, prescription)",
      0.95, 30.0, "very_low", "🏥",
      ["Prescription chirurgie", "Dosage médicament critique", "Arrêt traitement vital"],
      Some(MedicalCritical)),
    "Legal-Contracts (Juridique)" := DomainConfig(
      "Signature et validation de contrats légaux",
      0.98, 25.0, "very_low", "⚖️",
      ["Signature contrat immobilier", "Accord commercial majeur", "Testament"],
      Some(LegalCritical)),
    "Auto-Drive (Véhicules)" := DomainConfig(
      "Véhicules autonomes - décisions de conduite",
      0.6, 2.0, "medium", "🚗",
      ["Changement de voie d'urgence", "Freinage automatique", "Dépassement"],
      Some(DriveCritical)),
    "Factory-Control (Industriel)" := DomainConfig(
      "Contrôle de lignes de production industrielles",
      0.85, 20.0, "low", "🏭",
      ["Arrêt d'urgence ligne", "Changement de recette", "Maintenance préventive"],
      Some(FactoryCritical)),
    "Unified" := DomainConfig(
      "Mode unifié multi-domaines",
      0.8, 10.0, "medium", "🌐",
      ["Scénario générique"],
      None)
  ]

  /** `get_domain_config`: the domain's entry, or the "Unified" one for an unknown domain. */
  function GetDomainConfig(domain: string): (c: DomainConfig)
    ensures c in DomainConfigs.Values
    ensures domain !in DomainConfigs ==> c == DomainConfigs[Unified]
  {
    if domain in DomainConfigs then DomainConfigs[domain] else DomainConfigs[Unified]
  }

  /** Every entry of the table has a threshold in [0,1] and a positive tau. */
  predicate Sane(c: DomainConfig) {
    0.0 <= c.irreversibleThreshold <= 1.0 && c.defaultTau > 0.0 && |c.typicalScenarios| > 0
  }

  lemma EveryEntryIsSane()
    ensures forall c :: c in DomainConfigs.Values ==> Sane(c)
  {
    forall c | c in DomainConfigs.Values
      ensures Sane(c)
    {
      var d :| d in DomainConfigs && DomainConfigs[d] == c;
    }
  }

  /** `get_domain_critical_threshold`: always in [0,1]; 0.8 for an unknown domain. */
  function GetDomainCriticalThreshold(domain: string): (t: real)
    ensures 0.0 <= t <= 1.0
    ensures domain !in DomainConfigs ==> t == 0.8
  {
    EveryEntryIsSane();
    GetDomainConfig(domain).irreversibleThreshold
  }

  /** `get_domain_recommended_tau`: always positive; 10.0 for an unknown domain. */
  function GetDomainRecommendedTau(domain: string): (tau: real)
    ensures tau > 0.0
    ensures domain !in DomainConfigs ==> tau == 10.0
  {
    EveryEntryIsSane();
    GetDomainConfig(domain).defaultTau
  }

  /** The medical domain waits longest before an irreversible action. */
  lemma MedicalWaitsLongest(domain: string)
    ensures GetDomainRecommendedTau("Medical-AI (Sant\U{00E9})") == 30.0
    ensures GetDomainRecommendedTau(domain) <= 30.0
  {
  }

  /** `get_domain_scenarios`: never empty. */
  function GetDomainScenarios(domain: string): (s: seq<string>)
    ensures |s| > 0
    ensures domain !in DomainConfigs ==> s == DomainConfigs[Unified].typicalScenarios
  {
    EveryEntryIsSane();
    GetDomainConfig(domain).typicalScenarios
  }

  /** `get_domain_description`: the icon, a space, then the description. */
  function GetDomainDescription(domain: string): (r: string)
    ensures var c := GetDomainConfig(domain);
            |r| == |c.icon| + 1 + |c.description|
            && r[..|c.icon|] == c.icon && r[|c.icon|] == ' ' && r[|c.icon| + 1..] == c.description
  {
    var c := GetDomainConfig(domain);
    c.icon + " " + c.description
  }

  /** `is_action_critical`: the upper-cased action is one of the domain's critical actions. */
  function IsActionCritical(domain: string, action: string): (critical: bool)
    ensures critical ==> GetDomainConfig(domain).criticalActions.Some?
    ensures critical <==>
              && domain in DomainConfigs && DomainConfigs[domain].criticalActions.Some?
              && Text.Upper(action) in DomainConfigs[domain].criticalActions.value
  {
    assert DomainConfigs[Unified].criticalActions.None?;
    var actions := GetDomainConfig(domain).criticalActions.GetOr([]);
    Text.Upper(action) in actions
  }

  /** Upper-casing is idempotent and ignores the case of its input. */
  lemma UpperIgnoresCase(action: string)
    ensures Text.Upper(Text.Upper(action)) == Text.Upper(action)
    ensures Text.Upper(Text.Lower(action)) == Text.Upper(action)
  {
    assert forall i :: 0 <= i < |action| ==> Text.UpperChar(Text.LowerChar(action[i])) == Text.UpperChar(action[i]);
  }

  /** The case in which an action is written does not matter. */
  lemma CriticalIgnoresCase(domain: string, action: string)
    ensures IsActionCritical(domain, Text.Lower(action)) == IsActionCritical(domain, action)
    ensures IsActionCritical(domain, Text.Upper(action)) == IsActionCritical(domain, action)
  {
    UpperIgnoresCase(action);
  }

  /** No ASCII lower-case letter: `Upper` leaves the string as it is. */
  predicate UpperCase(s: string) {
    forall i :: 0 <= i < |s| ==> !('a' <= s[i] <= 'z')
  }

  lemma UpperOfUpperCase(s: string)
    requires UpperCase(s)
    ensures Text.Upper(s) == s
  {
  }

  predicate AllUpperCase(xs: seq<string>) {
    forall k :: 0 <= k < |xs| ==> UpperCase(xs[k])
  }

  lemma MedicalCriticalUpperCase()
    ensures AllUpperCase(MedicalCritical)
  {
    assert UpperCase(MedicalCritical[0]) && UpperCase(MedicalCritical[1]) && UpperCase(MedicalCritical[2]);
  }

  lemma LegalCriticalUpperCase()
    ensures AllUpperCase(LegalCritical)
  {
    assert UpperCase(LegalCritical[0]) && UpperCase(LegalCritical[1]) && UpperCase(LegalCritical[2]);
  }

  lemma DriveCriticalUpperCase()
    ensures AllUpperCase(DriveCritical)
  {
    assert UpperCase(DriveCritical[0]) && UpperCase(DriveCritical[1]) && UpperCase(DriveCritical[2]);
  }

  lemma FactoryCriticalUpperCase()
    ensures AllUpperCase(FactoryCritical)
  {
    assert UpperCase(FactoryCritical[0]) && UpperCase(FactoryCritical[1]) && UpperCase(FactoryCritical[2]);
  }

  /** The critical actions of the table are written in upper case. */
  lemma TableActionsAreUpperCase(domain: string, k: int)
    requires domain in DomainConfigs && DomainConfigs[domain].criticalActions.Some?
    requires 0 <= k < |DomainConfigs[domain].criticalActions.value|
    ensures UpperCase(DomainConfigs[domain].criticalActions.value[k])
  {
    MedicalCriticalUpperCase();
    LegalCriticalUpperCase();
    DriveCriticalUpperCase();
    FactoryCriticalUpperCase();
    var xs := DomainConfigs[domain].criticalActions.value;
    assert xs in {MedicalCritical, LegalCritical, DriveCritical, FactoryCritical};
  }

  /** Every critical action of the table is recognised in its own domain, in any case. */
  lemma ListedActionsAreCritical(domain: string, k: int, action: string)
    requires domain in DomainConfigs && DomainConfigs[domain].criticalActions.Some?
    requires 0 <= k < |DomainConfigs[domain].criticalActions.value|
    requires Text.Upper(action) == DomainConfigs[domain].criticalActions.value[k]
    ensures IsActionCritical(domain, action)
    ensures IsActionCritical(domain, DomainConfigs[domain].criticalActions.value[k])
  {
    TableActionsAreUpperCase(domain, k);
    UpperOfUpperCase(DomainConfigs[domain].criticalActions.value[k]);
  }
}
