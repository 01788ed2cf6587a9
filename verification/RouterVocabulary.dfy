/** The word lists of the router, as the program fixes them. */
module RouterVocabulary {
  import opened RoleEvidence
  import opened ResumeScoring

  function Word(t: string): Phrase { Phrase(t, [t]) }

  function Two(s: string, t: string): Phrase { Phrase(s + " " + t, [s, t]) }

  function Three(s: string, t: string, u: string): Phrase { Phrase(s + " " + t + " " + u, [s, t, u]) }

  function Words(ts: seq<string>): (r: seq<Phrase>)
    ensures |r| == |ts| && forall i :: 0 <= i < |ts| ==> r[i] == Word(ts[i])
  {
    seq(|ts|, i requires 0 <= i < |ts| => Word(ts[i]))
  }

  function PythonRule(): FamilyRule {
    FamilyRule(PythonBackend,
               [Two("python", "developer"), Two("python", "backend"), Two("django", "developer"),
                Two("backend", "python")],
               Words(["python", "django", "backend"]),
               Words(["python", "django", "postgresql", "rest_api", "celery"]),
               Words(["api", "linux", "sql", "docker", "git"]))
  }

  function WebRule(): FamilyRule {
    FamilyRule(WebBackend,
               [Two("backend", "developer"), Two("web", "developer"), Two("fullstack", "developer")],
               Words(["backend", "developer", "fullstack"]),
               Words(["php", "laravel", "vuejs", "react", "nodejs", "express", "soap"]),
               Words(["api", "linux", "sql", "docker", "git"]))
  }

  function AutomationRule(): FamilyRule {
    FamilyRule(AutomationIntegrations,
               [Two("automation", "engineer"), Two("integration", "specialist"), Two("implementation", "specialist")],
               Words(["automation", "integration", "implementation"]),
               Words(["automation", "integration", "implementation", "webhooks", "bitrix24", "crm"]),
               Words(["api", "linux", "sql", "docker", "git"]))
  }

  function SupportRule(): FamilyRule {
    FamilyRule(TechSupport,
               [Two("technical", "support"), Two("support", "engineer"), Three("first", "line", "support"),
                Two("application", "support")],
               Words(["support", "troubleshooting", "diagnostics", "installation"]),
               Words(["support", "troubleshooting", "diagnostics", "installation", "crm"]),
               Words(["api", "linux", "sql", "docker", "git"]))
  }

  function AdminRule(): FamilyRule {
    FamilyRule(SystemAdmin,
               [Two("system", "administrator"), Two("linux", "administrator"), Word("sysadmin")],
               Words(["administrator", "sysadmin", "devops"]),
               Words(["linux", "dns", "network", "devops", "kubernetes"]),
               Words(["sql", "git", "api"]))
  }

  /** The phrase "vue developer" has the canonical tokens vuejs and developer. */
  function FrontendRule(): FamilyRule {
    FamilyRule(Frontend,
               [Two("frontend", "developer"), Three("front", "end", "developer"),
                Phrase("vue developer", ["vuejs", "developer"]), Two("react", "developer")],
               Words(["frontend", "vuejs", "react"]),
               Words(["vuejs", "react", "typescript", "javascript", "html", "css"]),
               Words(["api", "git", "docker"]))
  }

  function FlutterRule(): FamilyRule {
    FamilyRule(Flutter,
               [Two("flutter", "developer"), Two("flutter", "engineer")],
               Words(["flutter"]),
               Words(["flutter", "dart"]),
               Words(["api", "git"]))
  }

  function OneCRule(): FamilyRule {
    FamilyRule(OneC,
               [Two("1c", "developer"), Two("1c", "consultant"), Three("one", "c", "developer")],
               Words(["onec", "1c"]),
               Words(["onec", "1c"]),
               Words(["sql", "api", "git"]))
  }

  /** The second phrase is Russian and has the same canonical tokens as the first. */
  function AnalystRule(): FamilyRule {
    FamilyRule(SystemAnalyst,
               [Two("system", "analyst"), Phrase("системный аналитик", ["system", "analyst"])],
               Words(["analyst", "system"]),
               Words(["xml", "soap", "sql"]),
               Words(["api", "git"]))
  }

  function Rules(): seq<FamilyRule> {
    [PythonRule(), WebRule(), AutomationRule(), SupportRule(), AdminRule(), FrontendRule(), FlutterRule(), OneCRule(),
     AnalystRule()]
  }

  function RoleTokens(): set<string> {
    {"python", "django", "backend", "support", "automation", "integration", "implementation", "fullstack", "devops",
     "data", "analytics"}
  }

  function GenericTokens(): set<string> {
    {"developer", "specialist", "technical", "engineer", "api", "backend"}
  }

  function SpecificTokens(): set<string> {
    {"python", "django", "postgresql", "sql", "rest_api", "docker", "redis", "nginx", "typescript", "javascript",
     "react", "nodejs", "express", "webhooks", "bitrix24", "crm", "linux", "soap", "vuejs", "laravel",
     "php", "html", "css", "automation", "integration", "implementation", "support", "troubleshooting", "diagnostics",
     "installation", "network", "cloud", "devops", "kubernetes", "kafka", "celery", "xml", "dns", "fullstack"}
  }

  function DomainTokens(): set<string> {
    {"automation", "integration", "implementation", "support", "crm", "backend", "fullstack", "data", "analytics"}
  }

  function LevelWords(): seq<string> { ["senior", "middle", "middle+", "junior", "стажер", "ведущий"] }

  function Router(): Vocabulary {
    Vocabulary(Rules(), RoleTokens(), GenericTokens(), SpecificTokens(), DomainTokens(), LevelWords())
  }

  // ------------------------------------------------ words that tell nothing

  /** None of flutter, engineer, kafka, nginx, cloud and data, by length and first letter. */
  predicate Foreign(x: string) {
    x != "" && !(|x| == 7 && x[0] == 'f') && !(|x| == 8 && x[0] == 'e')
        && !(|x| == 5 && (x[0] == 'k' || x[0] == 'n' || x[0] == 'c')) && !(|x| == 4 && x[0] == 'd')
  }

  /** A vacancy of foreign words only shows the family of no such rule. */
  predicate ForeignRule(rule: FamilyRule) {
    && (forall p :: p in rule.titleAnchors ==> exists x :: x in p.text && Foreign(x))
    && (forall p :: p in rule.roleTokens ==> Foreign(p.raw))
    && (forall p :: p in rule.specificTokens ==> Foreign(p.raw))
  }

  lemma WordsForeign(ts: seq<string>)
    requires forall t :: t in ts ==> Foreign(t)
    ensures forall p :: p in Words(ts) ==> Foreign(p.raw)
  {
  }

  lemma TwoForeign(s: string, t: string)
    requires Foreign(s) || Foreign(t)
    ensures exists x :: x in Two(s, t).text && Foreign(x)
  {
    assert s in [s, t] && t in [s, t];
  }

  lemma FirstForeign(p: Phrase)
    requires p.text != [] && Foreign(p.text[0])
    ensures exists x :: x in p.text && Foreign(x)
  {
    assert p.text[0] in p.text;
  }

  lemma PythonForeign()
    ensures ForeignRule(PythonRule())
  {
    WordsForeign(["python", "django", "backend"]);
    WordsForeign(["python", "django", "postgresql", "rest_api", "celery"]);
    TwoForeign("python", "developer");
    TwoForeign("python", "backend");
    TwoForeign("django", "developer");
    TwoForeign("backend", "python");
    hide Two, Words;
  }

  lemma WebForeign()
    ensures ForeignRule(WebRule())
  {
    WordsForeign(["backend", "developer", "fullstack"]);
    WordsForeign(["php", "laravel", "vuejs", "react", "nodejs", "express", "soap"]);
    TwoForeign("backend", "developer");
    TwoForeign("web", "developer");
    TwoForeign("fullstack", "developer");
    hide Two, Words;
  }

  lemma AutomationForeign()
    ensures ForeignRule(AutomationRule())
  {
    WordsForeign(["automation", "integration", "implementation"]);
    WordsForeign(["automation", "integration", "implementation", "webhooks", "bitrix24", "crm"]);
    TwoForeign("automation", "engineer");
    TwoForeign("integration", "specialist");
    TwoForeign("implementation", "specialist");
    hide Two, Words;
  }

  lemma SupportForeign()
    ensures ForeignRule(SupportRule())
  {
    WordsForeign(["support", "troubleshooting", "diagnostics", "installation"]);
    WordsForeign(["support", "troubleshooting", "diagnostics", "installation", "crm"]);
    TwoForeign("technical", "support");
    TwoForeign("support", "engineer");
    FirstForeign(Three("first", "line", "support"));
    TwoForeign("application", "support");
    hide Two, Three, Words;
  }

  lemma AdminForeign()
    ensures ForeignRule(AdminRule())
  {
    WordsForeign(["administrator", "sysadmin", "devops"]);
    WordsForeign(["linux", "dns", "network", "devops", "kubernetes"]);
    TwoForeign("system", "administrator");
    TwoForeign("linux", "administrator");
    FirstForeign(Word("sysadmin"));
    hide Two, Word, Words;
  }

  lemma FrontendForeign()
    ensures ForeignRule(FrontendRule())
  {
    WordsForeign(["frontend", "vuejs", "react"]);
    WordsForeign(["vuejs", "react", "typescript", "javascript", "html", "css"]);
    TwoForeign("frontend", "developer");
    FirstForeign(Three("front", "end", "developer"));
    FirstForeign(Phrase("vue developer", ["vuejs", "developer"]));
    TwoForeign("react", "developer");
    hide Two, Three, Words;
  }

  lemma OneCForeign()
    ensures ForeignRule(OneCRule())
  {
    WordsForeign(["onec", "1c"]);
    TwoForeign("1c", "developer");
    TwoForeign("1c", "consultant");
    FirstForeign(Three("one", "c", "developer"));
    hide Two, Three, Words;
  }

  lemma AnalystForeign()
    ensures ForeignRule(AnalystRule())
  {
    WordsForeign(["analyst", "system"]);
    WordsForeign(["xml", "soap", "sql"]);
    TwoForeign("system", "analyst");
    FirstForeign(Phrase("системный аналитик", ["system", "analyst"]));
    hide Two, Words;
  }

  /** Every rule but the sixth, counted from zero, has foreign words only. */
  lemma OtherRulesForeign(i: nat)
    requires i < |Rules()| && i != 6
    ensures ForeignRule(Rules()[i])
  {
    PythonForeign();
    WebForeign();
    AutomationForeign();
    SupportForeign();
    AdminForeign();
    FrontendForeign();
    OneCForeign();
    AnalystForeign();
    hide ForeignRule, PythonRule, WebRule, AutomationRule, SupportRule, AdminRule, FrontendRule, FlutterRule, OneCRule,
        AnalystRule;
  }

  lemma SetsForeign()
    ensures forall x :: x in RoleTokens() ==> Foreign(x) || x == "data"
    ensures forall x :: x in DomainTokens() ==> Foreign(x) || x == "data"
    ensures forall x :: x in GenericTokens() ==> Foreign(x) || x == "engineer"
  {
  }
}
