/**
 * The result fields of the session: the pasted code, the three stored sections, the
 * completion flag and the last action mode. A successful analysis stores the parsed
 * sections its mode asked for and empties the others; Clear empties everything. The
 * download offer needs a stored section that is neither empty nor a `_No...` fallback.
 */
module Session {
  import opened Outcomes
  import opened Text
  import opened ResponseParser
  import opened Prompts
  import Llm

  /** The three stored sections, `executive_summary`, `technical_docs`, `python_code`. */
  datatype Shown = Shown(executiveSummary: string, technicalDocs: string, pythonCode: string)

  /** What a successful analysis in `mode` leaves stored, given what was stored before. */
  function StoreShown(mode: string, sections: ParsedSections, before: Shown): Shown {
    if mode == FullMode then Shown(sections.executiveSummary, sections.technicalDocs, sections.pythonCode)
    else if mode == DocsOnlyMode then Shown(sections.executiveSummary, sections.technicalDocs, "")
    else if mode == PythonOnlyMode then Shown("", "", sections.pythonCode)
    else before
  }

  /** `v and not v.startswith("_No")`: a section worth putting in the report. */
  predicate Substantial(v: string) {
    v != "" && !StartsWith(v, FallbackPrefix)
  }

  /** `has_content`: the report is offered when some stored section is substantial. */
  predicate CanDownload(s: Shown) {
    Substantial(s.executiveSummary) || Substantial(s.technicalDocs) || Substantial(s.pythonCode)
  }

  /** The string-valued `defaults` of `init_session_state`, keys in the dictionary's
      order; `analysis_complete` is the class field below. */
  const DefaultKeys: seq<string> := ["gemini_api_key", "azure_api_key", "azure_endpoint",
    "azure_deployment", "azure_api_version", "selected_model", "selected_language",
    "rpgle_input", "executive_summary", "technical_docs", "python_code"]

  const SessionDefaults: map<string, string> := map[
    "gemini_api_key" := "", "azure_api_key" := "", "azure_endpoint" := "",
    "azure_deployment" := "", "azure_api_version" := "2024-02-01",
    "selected_model" := "Gemini Flash (Latest)", "selected_language" := "RPGLE / AS400",
    "rpgle_input" := "", "executive_summary" := "", "technical_docs" := "", "python_code" := ""]

  /** A session with the `defaults` of `keys` added where the session has no value. */
  function WithDefaults(session: Llm.Session, defaults: map<string, string>, keys: set<string>): Llm.Session
    requires keys <= defaults.Keys
  {
    map k | k in session.Keys + keys :: if k in session then session[k] else defaults[k]
  }

  /** The keys of `keys` before index `i`. */
  function KeysBefore(keys: seq<string>, i: nat): set<string>
    requires i <= |keys|
  {
    set j | 0 <= j < i :: keys[j]
  }

  lemma DefaultKeysListed()
    ensures forall i | 0 <= i < |DefaultKeys| :: DefaultKeys[i] in SessionDefaults
    ensures KeysBefore(DefaultKeys, |DefaultKeys|) == SessionDefaults.Keys
  {
    forall k | k in SessionDefaults.Keys ensures k in KeysBefore(DefaultKeys, |DefaultKeys|) {
      var i :| 0 <= i < |DefaultKeys| && DefaultKeys[i] == k by {
        if k == "gemini_api_key" { assert DefaultKeys[0] == k; }
        else if k == "azure_api_key" { assert DefaultKeys[1] == k; }
        else if k == "azure_endpoint" { assert DefaultKeys[2] == k; }
        else if k == "azure_deployment" { assert DefaultKeys[3] == k; }
        else if k == "azure_api_version" { assert DefaultKeys[4] == k; }
        else if k == "selected_model" { assert DefaultKeys[5] == k; }
        else if k == "selected_language" { assert DefaultKeys[6] == k; }
        else if k == "rpgle_input" { assert DefaultKeys[7] == k; }
        else if k == "executive_summary" { assert DefaultKeys[8] == k; }
        else if k == "technical_docs" { assert DefaultKeys[9] == k; }
        else { assert DefaultKeys[10] == k; }
      }
    }
  }

  /** One pass of the loop: a missing key gets its default, a present one is left alone. */
  lemma AddDefault(session: Llm.Session, defaults: map<string, string>, keys: seq<string>, i: nat,
                   s: Llm.Session)
    requires i < |keys| && keys[i] in defaults && KeysBefore(keys, i) <= defaults.Keys
    requires s == WithDefaults(session, defaults, KeysBefore(keys, i))
    ensures KeysBefore(keys, i + 1) == KeysBefore(keys, i) + {keys[i]}
    ensures (if keys[i] in s then s else s[keys[i] := defaults[keys[i]]])
      == WithDefaults(session, defaults, KeysBefore(keys, i + 1))
  {
    assert KeysBefore(keys, i + 1) == KeysBefore(keys, i) + {keys[i]};
  }

  /** `init_session_state`: every default whose key the session lacks is added; a value
      already in the session stays. */
  method InitSessionState(session: Llm.Session) returns (s: Llm.Session)
    ensures s == Initialised(session)
  {
    DefaultKeysListed();
    s := session;
    for i := 0 to |DefaultKeys|
      invariant KeysBefore(DefaultKeys, i) <= SessionDefaults.Keys
      invariant s == WithDefaults(session, SessionDefaults, KeysBefore(DefaultKeys, i))
    {
      var key := DefaultKeys[i];
      AddDefault(session, SessionDefaults, DefaultKeys, i, s);
      if key !in s {
        s := s[key := SessionDefaults[key]];
      }
    }
  }

  /** The session `init_session_state` leaves. */
  function Initialised(session: Llm.Session): Llm.Session {
    WithDefaults(session, SessionDefaults, SessionDefaults.Keys)
  }

  /** After initialisation every default key has a value, the session's own values are
      kept, and a missing key holds its default. */
  lemma InitKeepsAndFills(session: Llm.Session, k: string)
    ensures var s := Initialised(session);
      && (k in s <==> k in session || k in SessionDefaults)
      && (k in session ==> s[k] == session[k])
      && (k !in session && k in SessionDefaults ==> s[k] == SessionDefaults[k])
  {
  }

  /** Initialising twice is initialising once. */
  lemma InitIdempotent(session: Llm.Session)
    ensures Initialised(Initialised(session))
      == Initialised(session)
  {
  }

  /** `call_llm` reads an initialised session as it reads the session itself, except that a
      missing model is "Gemini Flash (Latest)" instead of its own default "Gemini 1.5 Pro". */
  lemma InitialisedSettings(session: Llm.Session)
    ensures var r := Llm.ReadSettings(session);
      Llm.ReadSettings(Initialised(session))
        == r.(provider := Llm.Get(session, "selected_model", "Gemini Flash (Latest)"))
  {
  }

  /** A fresh session sends a keyed request to the latest Gemini Flash model. */
  lemma FreshSessionModel()
    ensures var r := Llm.ReadSettings(Initialised(map[]));
      && r == Llm.Settings(DefaultLanguage, "Gemini Flash (Latest)", "", "", "", "", "2024-02-01")
      && Llm.GeminiModel(r.provider) == "gemini-flash-latest"
  {
    InitialisedSettings(map[]);
    Llm.EmptySessionDefaults();
  }

  /** The result fields of `st.session_state`. */
  class ResultStore {
    var input: string
    var analysisComplete: bool
    var executiveSummary: string
    var technicalDocs: string
    var pythonCode: string
    var lastActionMode: Option<string>

    function Contents(): Shown
      reads this
    {
      Shown(executiveSummary, technicalDocs, pythonCode)
    }

    /** Until an analysis has finished, no section is stored. */
    predicate Valid()
      reads this
    {
      !analysisComplete ==> Contents() == Shown("", "", "")
    }

    /** The defaults set when a session starts; no action mode has been recorded yet. */
    constructor()
      ensures input == "" && !analysisComplete && lastActionMode == None
      ensures Contents() == Shown("", "", "")
      ensures Valid()
    {
      input := "";
      analysisComplete := false;
      executiveSummary := "";
      technicalDocs := "";
      pythonCode := "";
      lastActionMode := None;
    }

    /** The Clear button: the code and all results go; the last action mode stays. */
    method Clear()
      modifies this
      ensures input == "" && !analysisComplete
      ensures Contents() == Shown("", "", "")
      ensures lastActionMode == old(lastActionMode)
      ensures Valid()
    {
      input := "";
      analysisComplete := false;
      executiveSummary := "";
      technicalDocs := "";
      pythonCode := "";
    }

    /** Storing the parsed reply of a successful analysis in `mode`. */
    method Store(mode: string, sections: ParsedSections)
      modifies this
      ensures Contents() == StoreShown(mode, sections, old(Contents()))
      ensures analysisComplete && lastActionMode == Some(mode)
      ensures input == old(input)
      ensures Valid()
    {
      if mode == FullMode {
        executiveSummary := sections.executiveSummary;
        technicalDocs := sections.technicalDocs;
        pythonCode := sections.pythonCode;
      } else if mode == DocsOnlyMode {
        executiveSummary := sections.executiveSummary;
        technicalDocs := sections.technicalDocs;
        pythonCode := "";
      } else if mode == PythonOnlyMode {
        executiveSummary := "";
        technicalDocs := "";
        pythonCode := sections.pythonCode;
      }
      lastActionMode := Some(mode);
      analysisComplete := true;
    }

    /** The download gate: it is shown only under a finished analysis, and then offers
        the report when some stored section is substantial. In a valid store the first
        test adds nothing. */
    predicate HasContent()
      reads this
      ensures Valid() ==> (HasContent() <==> CanDownload(Contents()))
    {
      analysisComplete && CanDownload(Contents())
    }
  }

  // ---------------------------------------------------------------------------
  // Properties
  // ---------------------------------------------------------------------------

  /** Each known mode keeps exactly the sections it asked for and empties the rest, so no
      section of an earlier analysis survives; an unknown mode stores nothing. */
  lemma StoreReplacesStale(mode: string, sections: ParsedSections, before: Shown)
    ensures var s := StoreShown(mode, sections, before);
      && (mode == FullMode ==> s == Shown(sections.executiveSummary, sections.technicalDocs, sections.pythonCode))
      && (mode == DocsOnlyMode ==> s == Shown(sections.executiveSummary, sections.technicalDocs, ""))
      && (mode == PythonOnlyMode ==> s == Shown("", "", sections.pythonCode))
      && (mode in ModeInstructions ==>
            && (s.executiveSummary == "" || s.executiveSummary == sections.executiveSummary)
            && (s.technicalDocs == "" || s.technicalDocs == sections.technicalDocs)
            && (s.pythonCode == "" || s.pythonCode == sections.pythonCode))
      && (mode !in ModeInstructions ==> s == before)
  {
  }

  /** The parser never leaves a section empty. */
  predicate Filled(p: ParsedSections) {
    p.executiveSummary != "" && p.technicalDocs != "" && p.pythonCode != ""
  }

  lemma ParseFilled(raw: string)
    ensures Filled(ParseSpec(raw))
  {
    SectionsNeverEmpty(raw, ExecutiveSummary);
    SectionsNeverEmpty(raw, TechnicalDocs);
    SectionsNeverEmpty(raw, PythonCode);
  }

  /** After a known mode a stored section is empty exactly when the mode did not ask for it. */
  lemma StoredFilled(mode: string, p: ParsedSections, before: Shown)
    requires mode == FullMode || mode == DocsOnlyMode || mode == PythonOnlyMode
    requires Filled(p)
    ensures var s := StoreShown(mode, p, before);
      && (s.executiveSummary == "" <==> mode == PythonOnlyMode)
      && (s.technicalDocs == "" <==> mode == PythonOnlyMode)
      && (s.pythonCode == "" <==> mode == DocsOnlyMode)
  {
  }

  /** After a known mode, every section it asked for holds the non-empty parsed text. */
  lemma StoredParseNonEmpty(mode: string, raw: string, before: Shown)
    requires mode == FullMode || mode == DocsOnlyMode || mode == PythonOnlyMode
    ensures var s := StoreShown(mode, ParseSpec(raw), before);
      && (s.executiveSummary == "" <==> mode == PythonOnlyMode)
      && (s.technicalDocs == "" <==> mode == PythonOnlyMode)
      && (s.pythonCode == "" <==> mode == DocsOnlyMode)
  {
    ParseFilled(raw);
    StoredFilled(mode, ParseSpec(raw), before);
  }

  /** With every section filled, a full analysis is offered for download exactly when
      some section is not a `_No...` text. */
  lemma FullGate(p: ParsedSections, before: Shown)
    requires Filled(p)
    ensures CanDownload(StoreShown(FullMode, p, before)) <==>
      !StartsWith(p.executiveSummary, FallbackPrefix) || !StartsWith(p.technicalDocs, FallbackPrefix)
      || !StartsWith(p.pythonCode, FallbackPrefix)
  {
  }

  /** After a full analysis the report is offered exactly when some section of the reply
      is not a `_No...` fallback; a reply with no heading at all is never offered. */
  lemma FullAnalysisGate(raw: string, before: Shown)
    ensures var p := ParseSpec(raw);
      CanDownload(StoreShown(FullMode, p, before)) <==>
        !StartsWith(p.executiveSummary, FallbackPrefix) || !StartsWith(p.technicalDocs, FallbackPrefix)
        || !StartsWith(p.pythonCode, FallbackPrefix)
    ensures Search(raw, ExecutiveSummary).None? && Search(raw, TechnicalDocs).None? && Search(raw, PythonCode).None?
      ==> !CanDownload(StoreShown(FullMode, ParseSpec(raw), before))
  {
    ParseFilled(raw);
    FullGate(ParseSpec(raw), before);
    SectionsNeverEmpty(raw, ExecutiveSummary);
    SectionsNeverEmpty(raw, TechnicalDocs);
    SectionsNeverEmpty(raw, PythonCode);
    FallbackFacts(ExecutiveSummary);
    FallbackFacts(TechnicalDocs);
    FallbackFacts(PythonCode);
  }

  /** Nothing stored means nothing to download. */
  lemma EmptyStoreNoDownload()
    ensures !CanDownload(Shown("", "", ""))
  {
  }
}
