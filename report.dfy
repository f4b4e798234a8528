/**
 * `generate_report_markdown`: a fixed markdown template with the run's details, the
 * original code and the three stored sections substituted in a fixed order.
 *
 * The clock reading is a parameter. As with the prompts, the text is the f-string's
 * value, with its four-space source indentation, before `textwrap.dedent`.
 */
module Report {
  import opened Text

  /** `fixed[0] + values[0] + fixed[1] + ... + values[n-1] + fixed[n]`: an f-string whose
      literal parts are `fixed` and whose substituted fields are `values`. */
  function Fill(fixed: seq<string>, values: seq<string>): string
    requires |fixed| == |values| + 1
    decreases |values|
  {
    if values == [] then fixed[0] else fixed[0] + values[0] + Fill(fixed[1..], values[1..])
  }

  /** Where field `i` starts in `Fill(fixed, values)`. */
  function FieldOffset(fixed: seq<string>, values: seq<string>, i: nat): nat
    requires |fixed| == |values| + 1 && i < |values|
    decreases i
  {
    |fixed[0]| + if i == 0 then 0 else |values[0]| + FieldOffset(fixed[1..], values[1..], i - 1)
  }

  /** The first field follows the first literal part. */
  lemma FirstFieldPlaced(f: string, v: string, rest: string)
    ensures OccursAt(f + v + rest, f, 0) && OccursAt(f + v + rest, v, |f|)
  {
    OccursAtFront(f, v + rest);
    OccursAtFront(v, rest);
    OccursAfter(f, v + rest, v, 0);
    assert f + v + rest == f + (v + rest);
  }

  /** A literal part and field placed in `rest` stay placed after `head`. */
  lemma LaterFieldPlaced(head: string, rest: string, f: string, v: string, o: nat)
    requires |f| <= o && OccursAt(rest, f, o - |f|) && OccursAt(rest, v, o)
    ensures OccursAt(head + rest, f, |head| + o - |f|) && OccursAt(head + rest, v, |head| + o)
  {
    OccursAfter(head, rest, f, o - |f|);
    OccursAfter(head, rest, v, o);
  }

  /** Field `i` of the whole fill is field `i - 1` of the fill after the first field. */
  lemma {:induction false} FillPlacesStep(fixed: seq<string>, values: seq<string>, i: nat)
    requires |fixed| == |values| + 1 && 0 < i < |values|
    requires var s, o := Fill(fixed[1..], values[1..]), FieldOffset(fixed[1..], values[1..], i - 1);
      && |fixed[i]| <= o
      && OccursAt(s, fixed[i], o - |fixed[i]|)
      && OccursAt(s, values[i], o)
    ensures var s, o := Fill(fixed, values), FieldOffset(fixed, values, i);
      && |fixed[i]| <= o
      && OccursAt(s, fixed[i], o - |fixed[i]|)
      && OccursAt(s, values[i], o)
  {
    var head := fixed[0] + values[0];
    var rest := Fill(fixed[1..], values[1..]);
    assert Fill(fixed, values) == head + rest;
    var o := FieldOffset(fixed[1..], values[1..], i - 1);
    assert FieldOffset(fixed, values, i) == |head| + o;
    LaterFieldPlaced(head, rest, fixed[i], values[i], o);
  }

  /** Field `i` appears whole at its offset, right after literal part `i`. */
  lemma {:induction false} FillPlacesField(fixed: seq<string>, values: seq<string>, i: nat)
    requires |fixed| == |values| + 1 && i < |values|
    ensures var s, o := Fill(fixed, values), FieldOffset(fixed, values, i);
      && |fixed[i]| <= o
      && OccursAt(s, fixed[i], o - |fixed[i]|)
      && OccursAt(s, values[i], o)
    decreases i
  {
    if i == 0 {
      assert Fill(fixed, values) == fixed[0] + values[0] + Fill(fixed[1..], values[1..]);
      FirstFieldPlaced(fixed[0], values[0], Fill(fixed[1..], values[1..]));
    } else {
      FillPlacesField(fixed[1..], values[1..], i - 1);
      FillPlacesStep(fixed, values, i);
    }
  }

  /** Fields come in the order of the template: field `i` and the literal part after it
      end before field `j` starts. */
  lemma {:induction false} FieldsInOrder(fixed: seq<string>, values: seq<string>, i: nat, j: nat)
    requires |fixed| == |values| + 1 && i < j < |values|
    ensures FieldOffset(fixed, values, i) + |values[i]| + |fixed[i + 1]| <= FieldOffset(fixed, values, j)
    decreases i
  {
    if i == 0 {
      assert fixed[1..][0] == fixed[1];
    } else {
      FieldsInOrder(fixed[1..], values[1..], i - 1, j - 1);
      assert fixed[1..][i] == fixed[i + 1] && values[1..][i - 1] == values[i];
    }
  }

  /** In `s`, every field sits whole at its offset right after its literal part, and the
      fields come in template order. */
  predicate Placed(s: string, fixed: seq<string>, values: seq<string>)
    requires |fixed| == |values| + 1
  {
    && (forall i | 0 <= i < |values| ::
          && |fixed[i]| <= FieldOffset(fixed, values, i)
          && OccursAt(s, fixed[i], FieldOffset(fixed, values, i) - |fixed[i]|)
          && OccursAt(s, values[i], FieldOffset(fixed, values, i)))
    && (forall i, j | 0 <= i < j < |values| ::
          FieldOffset(fixed, values, i) + |values[i]| + |fixed[i + 1]| <= FieldOffset(fixed, values, j))
  }

  /** Filling a template places its fields. */
  lemma {:induction false} FillLayout(fixed: seq<string>, values: seq<string>)
    requires |fixed| == |values| + 1
    ensures Placed(Fill(fixed, values), fixed, values)
  {
    forall i | 0 <= i < |values|
      ensures && |fixed[i]| <= FieldOffset(fixed, values, i)
              && OccursAt(Fill(fixed, values), fixed[i], FieldOffset(fixed, values, i) - |fixed[i]|)
              && OccursAt(Fill(fixed, values), values[i], FieldOffset(fixed, values, i))
    {
      FillPlacesField(fixed, values, i);
    }
    forall i, j | 0 <= i < j < |values|
      ensures FieldOffset(fixed, values, i) + |values[i]| + |fixed[i + 1]| <= FieldOffset(fixed, values, j)
    {
      FieldsInOrder(fixed, values, i, j);
    }
  }

  /** The literal parts of the report template. */
  const ReportTemplate: seq<string> := [
    "    # LegacyLens Analysis Report\n    **Generated:** ",
    "\n    **Model:** ",
    "\n    **Language:** ",
    "\n\n    ---\n\n    ## Original ",
    " Code\n    ```\n    ",
    "\n    ```\n\n    ---\n\n    ## Executive Summary\n    ",
    "\n\n    ---\n\n    ## Technical Documentation\n    ",
    "\n\n    ---\n\n    ## Modernized Python Code\n    ",
    "\n\n    ---\n    *Report generated by LegacyLens \U{2014} Legacy Code Explainer & Modernizer*\n    "]

  /** The placeholder for a missing value. */
  const Missing := "N/A"

  /** `d.get(key, default)` on a string dictionary. */
  function Lookup(d: map<string, string>, key: string, default: string): string {
    if key in d then d[key] else default
  }

  /** The substituted fields, in template order: time, model, language twice, the code,
      then the three sections. */
  function ReportFields(legacyCode: string, sections: map<string, string>, now: string,
                        session: map<string, string>): seq<string> {
    var language := Lookup(session, "selected_language", "RPGLE / AS400");
    [now, Lookup(session, "selected_model", Missing), language, language, legacyCode,
     Lookup(sections, "executive_summary", Missing),
     Lookup(sections, "technical_docs", Missing),
     Lookup(sections, "python_code", Missing)]
  }

  /** `generate_report_markdown(legacy_code, sections)` at time `now`. */
  function GenerateReport(legacyCode: string, sections: map<string, string>, now: string,
                          session: map<string, string>): string {
    Fill(ReportTemplate, ReportFields(legacyCode, sections, now, session))
  }

  // ---------------------------------------------------------------------------
  // Properties
  // ---------------------------------------------------------------------------

  /** A missing section, and a missing model name, are shown as "N/A". */
  lemma MissingShownAsNA(legacyCode: string, sections: map<string, string>, now: string,
                         session: map<string, string>)
    ensures var f := ReportFields(legacyCode, sections, now, session);
      && ("selected_model" !in session ==> f[1] == Missing)
      && ("executive_summary" !in sections ==> f[5] == Missing)
      && ("technical_docs" !in sections ==> f[6] == Missing)
      && ("python_code" !in sections ==> f[7] == Missing)
      && ("executive_summary" in sections ==> f[5] == sections["executive_summary"])
      && ("technical_docs" in sections ==> f[6] == sections["technical_docs"])
      && ("python_code" in sections ==> f[7] == sections["python_code"])
  {
  }

  /** The report holds every field whole, right after its own literal part (so each section
      right under its heading), and in template order: the run's details, the code, then
      summary, documentation and Python. */
  lemma ReportLayout(legacyCode: string, sections: map<string, string>, now: string,
                     session: map<string, string>)
    ensures var f := ReportFields(legacyCode, sections, now, session);
      && |ReportTemplate| == |f| + 1 && f[4] == legacyCode
      && Placed(GenerateReport(legacyCode, sections, now, session), ReportTemplate, f)
  {
    FillLayout(ReportTemplate, ReportFields(legacyCode, sections, now, session));
  }
}
