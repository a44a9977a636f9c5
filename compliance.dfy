// The compliance helpers of src/legal/compliance.py: consent validity, the record of
// processing activities with its retention rule, and the per-jurisdiction checklists
// (France: RGPD and CNIL; USA: CCPA and the Colorado AI Act; the EU AI Act). The
// compliance configuration the manager reads is a constructor parameter here.
module Compliance {
  import opened Py
  import opened Json

  datatype Jurisdiction = France | UsaCalifornia | UsaColorado | UsaWyoming | Eu {
    function Text(): string {
      match this
      case France => "france"
      case UsaCalifornia => "usa_california"
      case UsaColorado => "usa_colorado"
      case UsaWyoming => "usa_wyoming"
      case Eu => "eu"
    }
  }

  datatype DataCategory = Personal | Sensitive | Financial | Technical

  /** The settings each checklist reads. */
  datatype FranceConfig = FranceConfig(
    rgpdCompliant: bool,
    dpiaRequired: bool,
    cnilRegistration: string,
    dpoEmail: string,
    dataRetentionDays: int)

  datatype UsaConfig = UsaConfig(ccpaCompliant: bool, privacyPolicyUrl: string, coloradoAiAct: bool)

  datatype EuAiActConfig = EuAiActConfig(
    riskClassification: string,
    transparencyEnabled: bool,
    humanOversightEnabled: bool)

  datatype ComplianceConfig = ComplianceConfig(france: FranceConfig, usa: UsaConfig, euAiAct: EuAiActConfig)

  datatype DataProcessingRecord = DataProcessingRecord(
    id: string,
    purpose: string,
    legalBasis: string,
    categories: seq<DataCategory>,
    retentionDays: int,
    recipients: seq<string>,
    createdAt: int)

  datatype ConsentRecord = ConsentRecord(
    userId: string,
    purpose: string,
    granted: bool,
    timestamp: int,
    expiresAt: Option<int>)
  {
    /** `is_valid` at time `now`: granted, and not past an expiry date if one is set. */
    predicate IsValid(now: int) {
      granted && !(expiresAt.Some? && now > expiresAt.value)
    }
  }

  /** A consent valid at some time was valid at every earlier time. */
  lemma ConsentValidityOnlyLapses(c: ConsentRecord, earlier: int, later: int)
    requires earlier <= later && c.IsValid(later)
    ensures c.IsValid(earlier)
  {
  }

  /** The retention policy, in days per category. */
  function RetentionDays(c: DataCategory): (days: int)
    ensures days > 0 && days <= 2555
    ensures days == 2555 <==> c.Financial?
  {
    match c
    case Personal => 365
    case Sensitive => 180
    case Financial => 2555
    case Technical => 90
  }

  /**
   * The retention of a record: the longest retention over its categories. `max` of an
   * empty sequence raises ValueError.
   */
  function Retention(cats: seq<DataCategory>): (r: Result<int>)
    ensures r.Ok? <==> cats != []
    ensures r.Ok? ==> forall c :: c in cats ==> RetentionDays(c) <= r.value
    ensures r.Ok? ==> exists c :: c in cats && RetentionDays(c) == r.value
  {
    if cats == [] then Err("ValueError: max() arg is an empty sequence")
    else
      var rest := Retention(cats[1..]);
      assert forall c :: c in cats ==> c == cats[0] || c in cats[1..];
      if rest.Err? || RetentionDays(cats[0]) >= rest.value then Ok(RetentionDays(cats[0]))
      else rest
  }

  /** Financial data is kept seven years, whatever else a record holds. */
  lemma {:induction false} FinancialRetention(cats: seq<DataCategory>)
    requires Financial in cats
    ensures Retention(cats) == Ok(2555)
  {
    var c :| c in cats && RetentionDays(c) == Retention(cats).value;
  }

  /** Whether a checklist entry calls for action: the value False, or text starting "TODO". */
  predicate NeedsAction(v: Value) {
    v == JBool(false) || (v.JStr? && StartsWith(v.s, "TODO"))
  }

  /** `actions_required`: the keys of the entries that call for action, in checklist order. */
  function ActionsRequired(checks: seq<(string, Value)>): (r: seq<string>)
    ensures forall k :: k in r <==> exists i :: 0 <= i < |checks| && checks[i].0 == k && NeedsAction(checks[i].1)
    ensures |r| <= |checks|
  {
    if checks == [] then []
    else
      var rest := ActionsRequired(checks[1..]);
      assert forall i :: 1 <= i < |checks| ==> checks[i] == checks[1..][i - 1];
      if NeedsAction(checks[0].1) then [checks[0].0] + rest else rest
  }

  /** `value or default` for a text setting. */
  function OrTodo(s: string, todo: string): string {
    if s != [] then s else todo
  }

  /** `checks[key]`, for a key the checklist is built with. */
  function At(checks: seq<(string, Value)>, key: string): Value {
    GetOr(checks, key, JNull)
  }

  /** A compliance report: a checklist, the EU preparation report, or an unknown jurisdiction. */
  datatype Report =
    | Checklist(jurisdiction: string, framework: string, compliant: bool, checks: seq<(string, Value)>)
    | Preparing(jurisdiction: string, framework: string, status: string, compliant: bool,
                checks: seq<(string, Value)>, notes: seq<string>)
    | Unknown(status: string, jurisdiction: string)
  {
    /** The "actions_required" entry of a checklist report. */
    function ActionsRequiredList(): seq<string>
      requires Checklist?
    {
      ActionsRequired(checks)
    }
  }

  /** What France needs for compliance: RGPD, no required DPIA, a CNIL registration, a DPO. */
  predicate FranceReady(cfg: FranceConfig) {
    cfg.rgpdCompliant && !cfg.dpiaRequired && cfg.cnilRegistration != [] && cfg.dpoEmail != []
  }

  /** What California needs: CCPA compliance and a privacy policy. */
  predicate UsaReady(cfg: UsaConfig) {
    cfg.ccpaCompliant && cfg.privacyPolicyUrl != []
  }

  /** The France checklist, one field per entry. */
  datatype FranceChecklist = FranceChecklist(
    rgpdCompliant: bool,
    dpiaRequired: bool,
    dpiaCompleted: bool,
    cnilRegistered: bool,
    cnilRegistration: string,
    dpoAppointed: bool,
    dpoEmail: string,
    dataRetentionPolicy: bool,
    retentionDays: int,
    consentManagement: bool,
    dataSubjectRights: bool)
  {
    /** The checklist as the dict the report carries, in its key order. */
    function Entries(): seq<(string, Value)> {
      [("rgpd_compliant", JBool(rgpdCompliant)),
       ("dpia_required", JBool(dpiaRequired)),
       ("dpia_completed", JBool(dpiaCompleted)),
       ("cnil_registered", JBool(cnilRegistered)),
       ("cnil_registration", JStr(cnilRegistration)),
       ("dpo_appointed", JBool(dpoAppointed)),
       ("dpo_email", JStr(dpoEmail)),
       ("data_retention_policy", JBool(dataRetentionPolicy)),
       ("retention_days", JNum(retentionDays as real)),
       ("consent_management", JBool(consentManagement)),
       ("data_subject_rights", JBool(dataSubjectRights))]
    }

    /** The `all([...])` of `_check_france_compliance`. */
    predicate AllCompliant() {
      rgpdCompliant && (dpiaCompleted || !dpiaRequired) && cnilRegistered && dpoAppointed
    }
  }

  /** The checklist built from the configuration; no DPIA is ever recorded as completed. */
  function FranceChecks(cfg: FranceConfig): FranceChecklist {
    FranceChecklist(
      cfg.rgpdCompliant, cfg.dpiaRequired, false,
      cfg.cnilRegistration != [], OrTodo(cfg.cnilRegistration, "TODO: Register with CNIL"),
      cfg.dpoEmail != [], OrTodo(cfg.dpoEmail, "TODO: Appoint DPO"),
      true, cfg.dataRetentionDays, true, true)
  }

  /**
   * `_check_france_compliance`. The DPIA is never recorded as completed, so France is
   * compliant exactly when RGPD compliance is set, no DPIA is required, and a CNIL
   * registration and a DPO address are configured.
   */
  function CheckFrance(cfg: FranceConfig): (r: Report)
    ensures r.Checklist? && r.jurisdiction == "France"
    ensures r.compliant <==> FranceReady(cfg)
  {
    var checks := FranceChecks(cfg);
    Checklist("France", "RGPD/GDPR + CNIL", checks.AllCompliant(), checks.Entries())
  }

  /** The France checklist always asks for the DPIA, even when it reports compliance. */
  lemma FranceAlwaysAsksForDpia(cfg: FranceConfig)
    ensures "dpia_completed" in CheckFrance(cfg).ActionsRequiredList()
  {
    assert FranceChecks(cfg).Entries()[2] == ("dpia_completed", JBool(false));
  }

  function UsaChecks(cfg: UsaConfig, j: Jurisdiction): seq<(string, Value)> {
    [("ccpa_compliant", JBool(cfg.ccpaCompliant)),
     ("privacy_policy", JBool(cfg.privacyPolicyUrl != [])),
     ("privacy_policy_url", JStr(OrTodo(cfg.privacyPolicyUrl, "TODO: Create privacy policy"))),
     ("opt_out_mechanism", JBool(true)),
     ("data_sale_disclosure", JBool(true))]
    + if j.UsaColorado? then
        [("colorado_ai_act", JBool(cfg.coloradoAiAct)),
         ("ai_risk_assessment", JBool(false)),
         ("admt_disclosure", JBool(true)),
         ("effective_date", JStr("June 30, 2026"))]
      else []
  }

  /** Every boolean entry of a checklist is true. */
  predicate AllFlagsSet(checks: seq<(string, Value)>) {
    forall i :: 0 <= i < |checks| && checks[i].1.JBool? ==> checks[i].1.b
  }

  /**
   * `_check_usa_compliance`: compliant when every boolean check holds. The Colorado
   * risk assessment is never recorded, so Colorado is never compliant.
   */
  function CheckUsa(cfg: UsaConfig, j: Jurisdiction): (r: Report)
    ensures r.Checklist? && r.jurisdiction == j.Text()
    ensures r.compliant <==> !j.UsaColorado? && UsaReady(cfg)
  {
    var checks := UsaChecks(cfg, j);
    if j.UsaColorado? then
      assert checks[6] == ("ai_risk_assessment", JBool(false));
      Checklist(j.Text(), "CCPA/CPRA + Colorado AI Act", AllFlagsSet(checks), checks)
    else
      assert !cfg.ccpaCompliant ==> !checks[0].1.b;
      assert cfg.privacyPolicyUrl == [] ==> !checks[1].1.b;
      Checklist(j.Text(), "CCPA/CPRA", AllFlagsSet(checks), checks)
  }

  /**
   * `_check_eu_ai_act`: the act is not yet in force, so the report is always
   * compliant; the system counts as high-risk exactly when classified "high".
   */
  function CheckEuAiAct(cfg: EuAiActConfig): (r: Report)
    ensures r.Preparing? && r.compliant && r.status == "preparing"
    ensures |r.checks| == 7 && r.checks[0] == ("risk_classification", JStr(cfg.riskClassification))
    ensures r.checks[1] == ("is_high_risk", JBool(cfg.riskClassification == "high"))
    ensures "Current risk classification: " + cfg.riskClassification in r.notes
  {
    var checks := [
      ("risk_classification", JStr(cfg.riskClassification)),
      ("is_high_risk", JBool(cfg.riskClassification == "high")),
      ("transparency_enabled", JBool(cfg.transparencyEnabled)),
      ("human_oversight_enabled", JBool(cfg.humanOversightEnabled)),
      ("documentation_complete", JBool(false)),
      ("conformity_assessment", JBool(false)),
      ("effective_date", JStr("August 2026"))];
    var notes := [
      "Full compliance required by August 2026",
      "Current risk classification: " + cfg.riskClassification,
      "Recommend completing documentation early"];
    assert notes[1] in notes;
    Preparing("European Union", "EU AI Act", "preparing", true, checks, notes)
  }

  class ComplianceManager {
    const config: ComplianceConfig
    var processingRecords: seq<DataProcessingRecord>
    /** Consent records by user id; nothing in the manager adds to them. */
    var consents: seq<(string, seq<ConsentRecord>)>

    constructor(config: ComplianceConfig)
      ensures this.config == config && processingRecords == [] && consents == []
    {
      this.config := config;
      processingRecords := [];
      consents := [];
    }

    /**
     * `check_compliance`: France, California and Colorado, and the EU go to their
     * checklists; any other jurisdiction is reported as unknown.
     */
    function CheckCompliance(j: Jurisdiction): (r: Report)
      ensures r.Unknown? <==> j.UsaWyoming?
      ensures r.Unknown? ==> r.status == "unknown" && r.jurisdiction == "usa_wyoming"
      ensures r.Preparing? <==> j.Eu?
      ensures r.Checklist? ==> r.jurisdiction == (if j.France? then "France" else j.Text())
      ensures r.Checklist? ==> (r.compliant <==> if j.France? then FranceReady(config.france)
                                                 else j.UsaCalifornia? && UsaReady(config.usa))
    {
      match j
      case France => CheckFrance(config.france)
      case UsaCalifornia => CheckUsa(config.usa, UsaCalifornia)
      case UsaColorado => CheckUsa(config.usa, UsaColorado)
      case Eu => CheckEuAiAct(config.euAiAct)
      case UsaWyoming => Unknown("unknown", j.Text())
    }

    /**
     * `record_processing` (GDPR Article 30): appends exactly one record with the given
     * purpose, basis, categories and recipients (none given: empty) and the longest
     * retention of its categories. No categories raise, and nothing is recorded.
     */
    method RecordProcessing(purpose: string, legalBasis: string, categories: seq<DataCategory>,
                            recipients: Option<seq<string>>, stamp: string, now: int)
      returns (r: Result<DataProcessingRecord>)
      modifies this
      ensures r.Ok? <==> categories != []
      ensures r.Err? ==> processingRecords == old(processingRecords)
      ensures r.Ok? ==>
        && r.value == DataProcessingRecord("proc_" + stamp, purpose, legalBasis, categories,
                                           Retention(categories).value,
                                           if recipients.Some? then recipients.value else [], now)
        && processingRecords == old(processingRecords) + [r.value]
      ensures consents == old(consents)
    {
      var retention := Retention(categories);
      if retention.Err? {
        return Err(retention.error);
      }
      var record := DataProcessingRecord("proc_" + stamp, purpose, legalBasis, categories, retention.value,
                                         if recipients.Some? then recipients.value else [], now);
      processingRecords := processingRecords + [record];
      r := Ok(record);
    }
  }
}
