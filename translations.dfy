/** Translation lookup: a key is split on "." and each segment is looked up
    in turn, starting from the chosen language's table; a missing or empty
    result falls back to the key itself. The tables are flat, so a dotted key
    never resolves. */
module Translations {
  import opened Strings

  /** The two supported languages, "en" and "hi". */
  datatype Language = En | Hi {
    function Code(): string {
      match this
      case En => "en"
      case Hi => "hi"
    }
  }

  /** The value the lookup holds between segments: a table, one of its
      strings, or undefined. */
  datatype Value = Table(entries: map<string, string>) | Text(text: string) | Undefined

  /** One optional-chained lookup step: a table yields its entry or undefined; a string or
      undefined yields undefined. */
  function Step(v: Value, k: string): (r: Value)
    ensures !r.Table?
  {
    match v
    case Table(entries) => if k in entries then Text(entries[k]) else Undefined
    case Text(_) => Undefined
    case Undefined => Undefined
  }

  /** The value reached after looking up the segments of `keys` in order. */
  function Walk(root: Value, keys: seq<string>): Value {
    if keys == [] then root else Step(Walk(root, keys[..|keys| - 1]), keys[|keys| - 1])
  }

  /** The value the walk reaches when it is a non-empty text, else the key itself. */
  function OrKey(v: Value, key: string): string {
    if v.Text? && v.text != "" then v.text else key
  }

  /** The lookup over one table: the meaning of `translate` and of `t`. */
  function Resolve(key: string, table: map<string, string>): string {
    OrKey(Walk(Table(table), Split(key, '.')), key)
  }

  /** The lookup loop of `translate` and `t` over one table. */
  method ResolveKey(key: string, table: map<string, string>) returns (r: string)
    ensures r == Resolve(key, table)
  {
    var keys := Split(key, '.');
    var value := Table(table);
    var i := 0;
    while i < |keys|
      invariant 0 <= i <= |keys|
      invariant value == Walk(Table(table), keys[..i])
    {
      assert keys[..i + 1][..i] == keys[..i];
      value := Step(value, keys[i]);
      i := i + 1;
    }
    assert keys[..|keys|] == keys;
    r := OrKey(value, key);
  }

  /** The `en` table. Its dotted keys are stored as flat keys. */
  const English: map<string, string> := map[
    "dashboard" := "Dashboard",
    "health_records" := "Health Records",
    "reports" := "Reports",
    "articles" := "Health Articles",
    "health_progress" := "Health Progress",
    "health_alerts" := "Health Alerts",
    "chatbot" := "AI Assistant",
    "profile" := "Profile",
    "nav.sign_out" := "Sign Out",
    "dashboard.welcome" := "Welcome back",
    "dashboard.overview" := "Here's an overview of your health journey",
    "dashboard.health_records" := "Health Records",
    "dashboard.medical_reports" := "Medical Reports",
    "dashboard.risk_score" := "Risk Score",
    "dashboard.total_entries" := "Total entries logged",
    "dashboard.reports_analyzed" := "Reports analyzed",
    "dashboard.last_updated" := "Last updated",
    "dashboard.no_assessment" := "No assessment yet",
    "dashboard.quick_actions" := "Quick Actions",
    "dashboard.common_tasks" := "Common tasks to manage your health",
    "dashboard.log_health_data" := "Log Health Data",
    "dashboard.upload_report" := "Upload Medical Report",
    "dashboard.chat_ai" := "Chat with AI Assistant",
    "dashboard.latest_reading" := "Latest Reading",
    "dashboard.recent_measurement" := "Your most recent health measurement",
    "dashboard.no_records" := "No health records yet",
    "dashboard.add_first_record" := "Add your first record",
    "language.english" := "English",
    "language.hindi" := "हिंदी"
  ]
  /** The `hi` table, with the same keys. */
  const Hindi: map<string, string> := map[
    "dashboard" := "डैशबोर्ड",
    "health_records" := "स्वास्थ्य रिकॉर्ड",
    "reports" := "रिपोर्ट",
    "articles" := "स्वास्थ्य लेख",
    "health_progress" := "स्वास्थ्य प्रगति",
    "health_alerts" := "स्वास्थ्य चेतावनी",
    "chatbot" := "AI सहायक",
    "profile" := "प्रोफ़ाइल",
    "nav.sign_out" := "साइन आउट",
    "dashboard.welcome" := "वापस स्वागत है",
    "dashboard.overview" := "यहाँ आपकी स्वास्थ्य यात्रा का अवलोकन है",
    "dashboard.health_records" := "स्वास्थ्य रिकॉर्ड",
    "dashboard.medical_reports" := "चिकित्सा रिपोर्ट",
    "dashboard.risk_score" := "जोखिम स्कोर",
    "dashboard.total_entries" := "कुल प्रविष्टियाँ दर्ज",
    "dashboard.reports_analyzed" := "रिपोर्ट विश्लेषित",
    "dashboard.last_updated" := "अंतिम अपडेट",
    "dashboard.no_assessment" := "अभी तक कोई मूल्यांकन नहीं",
    "dashboard.quick_actions" := "त्वरित क्रियाएं",
    "dashboard.common_tasks" := "अपने स्वास्थ्य का प्रबंधन करने के लिए सामान्य कार्य",
    "dashboard.log_health_data" := "स्वास्थ्य डेटा लॉग करें",
    "dashboard.upload_report" := "चिकित्सा रिपोर्ट अपलोड करें",
    "dashboard.chat_ai" := "AI सहायक से बात करें",
    "dashboard.latest_reading" := "नवीनतम पाठन",
    "dashboard.recent_measurement" := "आपका सबसे हालिया स्वास्थ्य माप",
    "dashboard.no_records" := "अभी तक कोई स्वास्थ्य रिकॉर्ड नहीं",
    "dashboard.add_first_record" := "अपना पहला रिकॉर्ड जोड़ें",
    "language.english" := "English",
    "language.hindi" := "हिंदी"
  ]

  function TableFor(lang: Language): map<string, string> {
    match lang
    case En => English
    case Hi => Hindi
  }

  /** `translate` */
  method Translate(key: string, lang: Language) returns (r: string)
    ensures r == Resolve(key, TableFor(lang))
  {
    r := ResolveKey(key, TableFor(lang));
  }

  /** After at least one segment the walk never holds a table, and after two
      it holds undefined, because no table entry is itself a table. */
  lemma {:induction false} WalkFlat(table: map<string, string>, keys: seq<string>)
    requires |keys| >= 2
    ensures Walk(Table(table), keys) == Undefined
  {
    var prefix := keys[..|keys| - 1];
    assert |prefix| >= 1;
    assert !Walk(Table(table), prefix).Table?;
  }

  /** A key with a "." never resolves in a flat table and comes back unchanged. */
  lemma DottedKeyUnchanged(key: string, table: map<string, string>)
    requires '.' in key
    ensures Resolve(key, table) == key
  {
    SplitWithSeparator(key, '.');
    WalkFlat(table, Split(key, '.'));
  }

  /** A key without a "." is looked up directly: a present, non-empty entry is
      returned, and anything else gives back the key. */
  lemma UndottedKey(key: string, table: map<string, string>)
    requires '.' !in key
    ensures key in table && table[key] != "" ==> Resolve(key, table) == table[key]
    ensures key !in table || table[key] == "" ==> Resolve(key, table) == key
  {
    SplitWithoutSeparator(key, '.');
    assert Walk(Table(table), [key]) == Step(Table(table), key) by {
      assert [key][..0] == [];
    }
  }

  /** The lookup returns something other than the key only for an undotted
      key with a non-empty entry, and then it returns that entry. */
  lemma ResolvedMeansEntry(key: string, table: map<string, string>)
    ensures Resolve(key, table) != key ==>
      '.' !in key && key in table && Resolve(key, table) == table[key]
    ensures '.' !in key && key in table && table[key] != "" ==> Resolve(key, table) == table[key]
  {
    if '.' in key {
      DottedKeyUnchanged(key, table);
    } else {
      UndottedKey(key, table);
    }
  }

  /** Both tables translate the same keys, and every entry is non-empty. */
  lemma TablesAgreeOnKeys()
    ensures English.Keys == Hindi.Keys
    ensures forall k :: k in English ==> English[k] != ""
    ensures forall k :: k in Hindi ==> Hindi[k] != ""
  {
  }

  /** "dashboard" is translated in both languages. */
  lemma DashboardTranslated()
    ensures Resolve("dashboard", TableFor(Hi)) == "डैशबोर्ड"
    ensures Resolve("dashboard", TableFor(En)) == "Dashboard"
  {
    assert Hindi["dashboard"] == "डैशबोर्ड";
    assert English["dashboard"] == "Dashboard";
    UndottedKey("dashboard", Hindi);
    UndottedKey("dashboard", English);
  }

  /** The dotted table keys come back unchanged in both languages. */
  lemma DottedTableKeysUnchanged(lang: Language)
    ensures "nav.sign_out" in TableFor(lang) && Resolve("nav.sign_out", TableFor(lang)) == "nav.sign_out"
    ensures "dashboard.welcome" in TableFor(lang) && Resolve("dashboard.welcome", TableFor(lang)) == "dashboard.welcome"
  {
    assert "nav.sign_out"[3] == '.';
    assert "dashboard.welcome"[9] == '.';
    DottedKeyUnchanged("nav.sign_out", TableFor(lang));
    DottedKeyUnchanged("dashboard.welcome", TableFor(lang));
  }
}
