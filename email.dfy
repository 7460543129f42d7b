/** E-mail rendering (src/utils/email.ts): `{key}` placeholder substitution and the display names
    of alert levels and operators. Sending mail and date formatting are not part of this model. */
module Email {
  import opened Types

  /** The subject and body of an e-mail template. */
  datatype EmailTemplate = EmailTemplate(subject: string, body: string)

  /** p occurs in s at position i. */
  predicate OccursAt(s: string, p: string, i: int) {
    0 <= i && i + |p| <= |s| && s[i..i + |p|] == p
  }

  predicate Occurs(s: string, p: string) {
    exists i :: 0 <= i <= |s| && OccursAt(s, p, i)
  }

  /** `s.replace(/pattern/g, rep)` for a pattern that matches one literal string: the leftmost
      occurrence is replaced, and the search goes on after it, so occurrences do not overlap. */
  function ReplaceAll(s: string, pat: string, rep: string): string
    requires pat != ""
    decreases |s|
  {
    if |s| < |pat| then s
    else if s[..|pat|] == pat then rep + ReplaceAll(s[|pat|..], pat, rep)
    else [s[0]] + ReplaceAll(s[1..], pat, rep)
  }

  /** Dropping the first character of a text free of p leaves it free of p. */
  lemma AbsentTail(s: string, p: string)
    requires s != [] && !Occurs(s, p)
    ensures !Occurs(s[1..], p)
  {
    forall i | 0 <= i <= |s| - 1 ensures !OccursAt(s[1..], p, i) {
      if OccursAt(s[1..], p, i) {
        assert s[1..][i..i + |p|] == s[i + 1..i + 1 + |p|];
        assert OccursAt(s, p, i + 1);
      }
    }
  }

  /** Text without the pattern is returned unchanged. */
  lemma {:induction false} ReplaceAbsent(s: string, pat: string, rep: string)
    requires pat != "" && !Occurs(s, pat)
    ensures ReplaceAll(s, pat, rep) == s
    decreases |s|
  {
    if |s| >= |pat| {
      assert !OccursAt(s, pat, 0);
      AbsentTail(s, pat);
      ReplaceAbsent(s[1..], pat, rep);
      assert s == [s[0]] + s[1..];
    }
  }

  /** The first character of p occurs nowhere else in it, so two occurrences of p cannot overlap.
      Every placeholder `{key}` whose key has no `{` is of this kind. */
  predicate Unbordered(p: string) {
    |p| >= 1 && forall i :: 1 <= i < |p| ==> p[i] != p[0]
  }

  /** `{key}`. */
  function Placeholder(key: string): (p: string)
    ensures p != ""
    ensures '{' !in key ==> Unbordered(p)
  {
    var p := "{" + key + "}";
    assert forall i :: 1 <= i < |p| - 1 ==> p[i] == key[i - 1];
    p
  }

  /** Text free of the pattern, then the pattern, then anything: the scan copies the text,
      replaces the pattern, and goes on with the rest. */
  lemma {:induction false} ReplaceBefore(a: string, pat: string, rest: string, rep: string)
    requires Unbordered(pat) && !Occurs(a, pat)
    ensures ReplaceAll(a + pat + rest, pat, rep) == a + rep + ReplaceAll(rest, pat, rep)
    decreases |a|
  {
    if a == [] {
      ReplaceAtStart(pat, rest, rep);
    } else {
      ReplaceSkip(a, pat, rest, rep);
      AbsentTail(a, pat);
      ReplaceBefore(a[1..], pat, rest, rep);
      assert a == [a[0]] + a[1..];
    }
  }

  /** A text that starts with the placeholder has it replaced first. */
  lemma ReplaceAtStart(pat: string, rest: string, rep: string)
    requires pat != ""
    ensures ReplaceAll(pat + rest, pat, rep) == rep + ReplaceAll(rest, pat, rep)
  {
    var s := pat + rest;
    assert s[..|pat|] == pat && s[|pat|..] == rest;
  }

  /** A text free of the placeholder in front of it: its first character is kept as it is. */
  lemma ReplaceSkip(a: string, pat: string, rest: string, rep: string)
    requires Unbordered(pat) && !Occurs(a, pat) && a != []
    ensures ReplaceAll(a + pat + rest, pat, rep) == [a[0]] + ReplaceAll(a[1..] + pat + rest, pat, rep)
  {
    var s := a + pat + rest;
    NoMatchBefore(a, pat, rest);
    assert s[1..] == a[1..] + pat + rest;
  }

  /** In front of a placeholder, no match starts at a non-empty text free of it. */
  lemma NoMatchBefore(a: string, pat: string, rest: string)
    requires Unbordered(pat) && !Occurs(a, pat) && a != []
    ensures (a + pat + rest)[..|pat|] != pat
  {
    var s := a + pat + rest;
    if |a| >= |pat| {
      assert s[..|pat|] == a[..|pat|];
      assert !OccursAt(a, pat, 0);
    } else {
      assert s[|a|] == pat[0];
    }
  }

  /** The pieces of a text, joined with sep between each two. */
  function Join(parts: seq<string>, sep: string): string
    requires parts != []
  {
    if |parts| == 1 then parts[0] else parts[0] + sep + Join(parts[1..], sep)
  }

  /** Every occurrence is replaced and nothing else changes: a text made of pieces free of the
      placeholder, joined by the placeholder, becomes the same pieces joined by the value. */
  lemma {:induction false} ReplaceJoin(parts: seq<string>, pat: string, rep: string)
    requires Unbordered(pat) && parts != []
    requires forall i :: 0 <= i < |parts| ==> !Occurs(parts[i], pat)
    ensures ReplaceAll(Join(parts, pat), pat, rep) == Join(parts, rep)
  {
    if |parts| == 1 {
      ReplaceAbsent(parts[0], pat, rep);
    } else {
      ReplaceBefore(parts[0], pat, Join(parts[1..], pat), rep);
      ReplaceJoin(parts[1..], pat, rep);
    }
  }

  /** The whole template text after the substitutions of the variables, one after the other in
      entry order, each on the result of the previous one. */
  function ApplyAll(s: string, vars: seq<(string, string)>): string {
    if vars == [] then s
    else
      var (key, value) := vars[|vars| - 1];
      ReplaceAll(ApplyAll(s, vars[..|vars| - 1]), Placeholder(key), value)
  }

  /** The first variable is substituted first, and the others work on its result. */
  lemma {:induction false} ApplyAllFirst(s: string, v: (string, string), rest: seq<(string, string)>)
    ensures ApplyAll(s, [v] + rest) == ApplyAll(ReplaceAll(s, Placeholder(v.0), v.1), rest)
    decreases |rest|
  {
    if rest == [] {
      assert ([v] + rest)[..0] == [];
    } else {
      var vars := [v] + rest;
      assert vars[..|vars| - 1] == [v] + rest[..|rest| - 1];
      ApplyAllFirst(s, v, rest[..|rest| - 1]);
    }
  }

  /** `renderEmailTemplate(template, variables)`: the variables are substituted in order into both
      the subject and the body. */
  method RenderEmailTemplate(template: EmailTemplate, vars: seq<(string, string)>) returns (r: EmailTemplate)
    ensures r.subject == ApplyAll(template.subject, vars)
    ensures r.body == ApplyAll(template.body, vars)
  {
    var subject := template.subject;
    var body := template.body;
    var i := 0;
    while i < |vars|
      invariant 0 <= i <= |vars|
      invariant subject == ApplyAll(template.subject, vars[..i])
      invariant body == ApplyAll(template.body, vars[..i])
    {
      var (key, value) := vars[i];
      subject := ReplaceAll(subject, Placeholder(key), value);
      body := ReplaceAll(body, Placeholder(key), value);
      assert vars[..i + 1][..i] == vars[..i];
      i := i + 1;
    }
    assert vars[..i] == vars;
    r := EmailTemplate(subject, body);
  }

  /** With one variable whose key has no `{`, every placeholder of it in the template is replaced by
      the value and the text around the placeholders is kept. */
  lemma RenderOneVariable(parts: seq<string>, key: string, value: string)
    requires '{' !in key && parts != []
    requires forall i :: 0 <= i < |parts| ==> !Occurs(parts[i], Placeholder(key))
    ensures ApplyAll(Join(parts, Placeholder(key)), [(key, value)]) == Join(parts, value)
  {
    assert [(key, value)][..0] == [];
    ReplaceJoin(parts, Placeholder(key), value);
  }

  /** `formatEmailLevel(level)`. */
  function FormatEmailLevel(level: Level): (s: string)
    ensures s == "严重" <==> level == Critical
    ensures level == Warning ==> s == "警告"
  {
    if level == Critical then "严重" else "警告"
  }
}
