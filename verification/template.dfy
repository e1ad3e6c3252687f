/** Template rendering: the rule's lines are joined with a newline, then
    every `{key}` placeholder of each variable is replaced by its value,
    one variable after another in enumeration order. */
module Template {
  import opened Types

  const NewLine: char := '\n'

  /** `lines.join("\n")`: the lines separated by single newlines; no lines
      give the empty string. */
  function Join(lines: seq<string>): string
    decreases |lines|
  {
    if |lines| == 0 then ""
    else if |lines| == 1 then lines[0]
    else lines[0] + [NewLine] + Join(lines[1..])
  }

  /** Cuts a string at every newline; the inverse of `Join` for lines that
      hold no newline themselves. */
  function Split(s: string): (r: seq<string>)
    ensures |r| >= 1
    decreases |s|
  {
    if |s| == 0 then [""]
    else if s[0] == NewLine then [""] + Split(s[1..])
    else
      var rest := Split(s[1..]);
      [[s[0]] + rest[0]] + rest[1..]
  }

  predicate NoNewLine(line: string) {
    forall k :: 0 <= k < |line| ==> line[k] != NewLine
  }

  /** A line without newlines splits into itself. */
  lemma {:induction false} SplitLine(a: string)
    requires NoNewLine(a)
    ensures Split(a) == [a]
    decreases |a|
  {
    if |a| > 0 {
      SplitLine(a[1..]);
      assert [a[0]] + a[1..] == a;
    }
  }

  /** Splitting stops at the first newline. */
  lemma {:induction false} SplitAtNewLine(a: string, b: string)
    requires NoNewLine(a)
    ensures Split(a + [NewLine] + b) == [a] + Split(b)
    decreases |a|
  {
    if |a| == 0 {
      assert a + [NewLine] + b == [NewLine] + b;
      assert ([NewLine] + b)[1..] == b;
    } else {
      var s := a + [NewLine] + b;
      assert s[1..] == a[1..] + [NewLine] + b;
      SplitAtNewLine(a[1..], b);
      assert [a[0]] + a[1..] == a;
    }
  }

  /** Joining loses nothing: splitting the joined text gives the lines
      back, as long as there is at least one line and none holds a
      newline. */
  lemma {:induction false} SplitJoin(lines: seq<string>)
    requires |lines| >= 1
    requires forall i :: 0 <= i < |lines| ==> NoNewLine(lines[i])
    ensures Split(Join(lines)) == lines
    decreases |lines|
  {
    if |lines| == 1 {
      SplitLine(lines[0]);
    } else {
      SplitJoin(lines[1..]);
      SplitAtNewLine(lines[0], Join(lines[1..]));
      assert [lines[0]] + lines[1..] == lines;
    }
  }

  /** The literal text `{key}` that stands for a variable. */
  function Placeholder(key: string): (p: string)
    ensures |p| == |key| + 2 && p[0] == '{' && p[|p| - 1] == '}'
  {
    "{" + key + "}"
  }

  /** `pat` occurs in `s` starting at position `i`. */
  predicate OccursAt(s: string, pat: string, i: nat) {
    i + |pat| <= |s| && s[i..i + |pat|] == pat
  }

  predicate Occurs(s: string, pat: string) {
    exists i: nat :: i <= |s| && OccursAt(s, pat, i)
  }

  /** `s.replace(/pat/g, v)` for a literal pattern: scanning left to right,
      each occurrence of `pat` that does not overlap an earlier replaced
      one becomes `v`; the inserted `v` is never scanned again. */
  function ReplaceAll(s: string, pat: string, v: string): string
    requires |pat| > 0
    decreases |s|
  {
    if |s| < |pat| then s
    else if s[..|pat|] == pat then v + ReplaceAll(s[|pat|..], pat, v)
    else [s[0]] + ReplaceAll(s[1..], pat, v)
  }

  /** Text in which the pattern does not occur is left as it is. */
  lemma {:induction false} ReplaceAllAbsent(s: string, pat: string, v: string)
    requires |pat| > 0
    requires !Occurs(s, pat)
    ensures ReplaceAll(s, pat, v) == s
    decreases |s|
  {
    if |s| >= |pat| {
      assert !OccursAt(s, pat, 0);
      if Occurs(s[1..], pat) {
        var i: nat :| i <= |s[1..]| && OccursAt(s[1..], pat, i);
        assert s[1..][i..i + |pat|] == s[i + 1..i + 1 + |pat|];
        assert OccursAt(s, pat, i + 1);
        assert false;
      }
      ReplaceAllAbsent(s[1..], pat, v);
      assert [s[0]] + s[1..] == s;
    }
  }

  /** The first occurrence is replaced, the text before it is kept as it
      is, and scanning resumes right after the occurrence (so occurrences
      never overlap). With `ReplaceAllAbsent` this pins down `ReplaceAll`
      completely. */
  lemma {:induction false} ReplaceAllFirst(a: string, b: string, pat: string, v: string)
    requires |pat| > 0
    requires forall i: nat :: i < |a| ==> !OccursAt(a + pat + b, pat, i)
    ensures ReplaceAll(a + pat + b, pat, v) == a + v + ReplaceAll(b, pat, v)
    decreases |a|
  {
    var s := a + pat + b;
    if |a| == 0 {
      assert s == pat + b;
      assert s[..|pat|] == pat;
      assert s[|pat|..] == b;
    } else {
      var t := a[1..] + pat + b;
      assert s[1..] == t;
      assert !OccursAt(s, pat, 0);
      ShiftNoOccurrence(s, t, pat, |a[1..]|);
      ReplaceAllFirst(a[1..], b, pat, v);
      calc {
        ReplaceAll(s, pat, v);
        [s[0]] + ReplaceAll(t, pat, v);
        [a[0]] + (a[1..] + v + ReplaceAll(b, pat, v));
        { assert [a[0]] + a[1..] == a; }
        a + v + ReplaceAll(b, pat, v);
      }
    }
  }

  /** Positions before `n` in `s[1..]` are positions before `n + 1` in `s`. */
  lemma ShiftNoOccurrence(s: string, t: string, pat: string, n: nat)
    requires |s| > 0 && t == s[1..]
    requires forall i: nat :: i < n + 1 ==> !OccursAt(s, pat, i)
    ensures forall i: nat :: i < n ==> !OccursAt(t, pat, i)
  {
    forall i: nat | i < n
      ensures !OccursAt(t, pat, i)
    {
      assert !OccursAt(s, pat, i + 1);
      if i + |pat| <= |t| {
        assert t[i..i + |pat|] == s[i + 1..i + 1 + |pat|];
      }
    }
  }

  /** The message after the first `|dict|` variables have been substituted
      into `text`, in dictionary order. */
  function Render(text: string, dict: VarDict): string
    decreases |dict|
  {
    if |dict| == 0 then text
    else
      var last := dict[|dict| - 1];
      ReplaceAll(Render(text, dict[..|dict| - 1]), Placeholder(last.key), last.value)
  }

  /** With no placeholder of any variable in the joined text (in particular
      with an empty dictionary), rendering returns the joined text. */
  lemma {:induction false} RenderNoPlaceholders(text: string, dict: VarDict)
    requires forall k :: 0 <= k < |dict| ==> !Occurs(text, Placeholder(dict[k].key))
    ensures Render(text, dict) == text
    decreases |dict|
  {
    if |dict| > 0 {
      var init := dict[..|dict| - 1];
      forall k | 0 <= k < |init|
        ensures !Occurs(text, Placeholder(init[k].key))
      {
        assert init[k] == dict[k];
      }
      RenderNoPlaceholders(text, init);
      ReplaceAllAbsent(text, Placeholder(dict[|dict| - 1].key), dict[|dict| - 1].value);
    }
  }

  predicate IsDigit(c: char) {
    '0' <= c <= '9'
  }

  /** One or more decimal digits. */
  predicate Digits(s: string) {
    |s| > 0 && forall k :: 0 <= k < |s| ==> IsDigit(s[k])
  }

  /** The bounds of a braced quantifier: `n`, `n,` or `n,m`. */
  predicate QuantifierBounds(s: string) {
    || Digits(s)
    || exists i :: 0 < i < |s| && s[i] == ',' && Digits(s[..i]) && (i == |s| - 1 || Digits(s[i + 1..]))
  }

  /** A braced quantifier `{n}`, `{n,}` or `{n,m}`. */
  predicate BracedQuantifier(s: string) {
    |s| >= 3 && s[0] == '{' && s[|s| - 1] == '}' && QuantifierBounds(s[1..|s| - 1])
  }

  /** The pattern source built for `key` starts with a braced quantifier,
      which has nothing before it to repeat: the RegExp constructor throws a
      SyntaxError for it. Any other `{` is read as a literal character. */
  predicate RejectedKey(key: string) {
    exists j :: 0 < j <= |key| + 2 && BracedQuantifier(Placeholder(key)[..j])
  }

  /** Some variable of the dictionary has a rejected key. */
  predicate AnyRejectedKey(dict: VarDict) {
    exists k :: 0 <= k < |dict| && RejectedKey(dict[k].key)
  }

  /** Quantifier bounds start with a digit. */
  lemma BoundsStartWithDigit(s: string)
    requires |s| > 0
    ensures QuantifierBounds(s) ==> IsDigit(s[0])
  {
    if QuantifierBounds(s) && !Digits(s) {
      var i :| 0 < i < |s| && s[i] == ',' && Digits(s[..i]) && (i == |s| - 1 || Digits(s[i + 1..]));
      assert s[..i][0] == s[0];
    }
  }

  /** A key that does not start with a digit builds a pattern that does not
      start with a braced quantifier, the only rejection this model covers. */
  lemma NonDigitKeyAccepted(key: string)
    requires |key| > 0 && !IsDigit(key[0])
    ensures !RejectedKey(key)
  {
    var p := Placeholder(key);
    forall j | 0 < j <= |key| + 2
      ensures !BracedQuantifier(p[..j])
    {
      if j >= 3 {
        var inner := p[..j][1..j - 1];
        assert inner[0] == key[0];
        BoundsStartWithDigit(inner);
      }
    }
  }

  /** As written, a key of digits such as `1` makes the RegExp constructor
      throw: `{1}` is a quantifier with nothing to repeat. */
  lemma DigitKeyRejected()
    ensures RejectedKey("1")
    ensures AnyRejectedKey([Var("name", "Bob"), Var("1", "x")])
  {
    assert Placeholder("1")[..3] == "{1}";
    assert Digits("{1}"[1..2]);
    assert BracedQuantifier(Placeholder("1")[..3]);
    assert RejectedKey([Var("name", "Bob"), Var("1", "x")][1].key);
  }

  /** A key of digits is an ordinary placeholder for literal replacement:
      `n={1}` with `1 = x` becomes `n=x`. */
  lemma DigitKeyLiteral()
    ensures Render("n={1}", [Var("1", "x")]) == "n=x"
  {
    assert "n={1}" == "n=" + Placeholder("1") + "";
    NoPlaceholderIn("", "1", 0);
    SubstituteOnce("n=", "", "1", "x");
    assert [Var("1", "x")][..0] == [];
  }

  /** No `{` among the first `n` characters of `s`. */
  predicate BraceFree(s: string, n: nat) {
    forall k :: 0 <= k < n && k < |s| ==> s[k] != '{'
  }

  /** A placeholder cannot start where there is no `{`, nor so late that
      it would run past the end. */
  lemma NoPlaceholderIn(s: string, key: string, n: nat)
    requires BraceFree(s, n) && |s| < n + |key| + 2
    ensures !Occurs(s, Placeholder(key))
  {
    var pat := Placeholder(key);
    forall i: nat | i <= |s|
      ensures !OccursAt(s, pat, i)
    {
      if i + |pat| <= |s| {
        assert s[i..i + |pat|][0] == s[i];
      }
    }
  }

  /** One variable whose placeholder occurs once, after text without `{`,
      is substituted at that place and nowhere else. */
  lemma SubstituteOnce(pre: string, post: string, key: string, value: string)
    requires BraceFree(pre, |pre|)
    requires !Occurs(post, Placeholder(key))
    ensures ReplaceAll(pre + Placeholder(key) + post, Placeholder(key), value) == pre + value + post
  {
    var pat := Placeholder(key);
    forall i: nat | i < |pre|
      ensures !OccursAt(pre + pat + post, pat, i)
    {
      assert (pre + pat + post)[i] == pre[i];
    }
    ReplaceAllFirst(pre, post, pat, value);
    ReplaceAllAbsent(post, pat, value);
  }

  /** The configured default template: `["hello {name}."]` with
      `name = "Alice"` renders as `hello Alice.`. */
  lemma DefaultTemplateExample()
    ensures Render(Join(["hello {name}."]), [Var("name", "Alice")]) == "hello Alice."
  {
    assert "hello {name}." == "hello " + Placeholder("name") + ".";
    NoPlaceholderIn(".", "name", 1);
    SubstituteOnce("hello ", ".", "name", "Alice");
    assert [Var("name", "Alice")][..0] == [];
  }

  /** Two variables, substituted in order:
      `["hi {name}, id={id}"]` with `name = "Bob"`, `id = "7"` renders as
      `hi Bob, id=7`. */
  lemma TwoVariablesExample()
    ensures Render(Join(["hi {name}, id={id}"]), [Var("name", "Bob"), Var("id", "7")]) == "hi Bob, id=7"
  {
    var dict := [Var("name", "Bob"), Var("id", "7")];
    assert dict[..1] == [Var("name", "Bob")];
    assert dict[..1][..0] == [];
    NameStep();
    IdStep();
  }

  lemma NameStep()
    ensures ReplaceAll("hi {name}, id={id}", Placeholder("name"), "Bob") == "hi Bob, id={id}"
  {
    assert "hi {name}, id={id}" == "hi " + Placeholder("name") + ", id={id}";
    NoPlaceholderIn(", id={id}", "name", 4);
    SubstituteOnce("hi ", ", id={id}", "name", "Bob");
    assert "hi " + "Bob" + ", id={id}" == "hi Bob, id={id}";
  }

  lemma IdStep()
    ensures ReplaceAll("hi Bob, id={id}", Placeholder("id"), "7") == "hi Bob, id=7"
  {
    var pre := "hi Bob, id=";
    assert BraceFree(pre, |pre|);
    assert "hi Bob, id={id}" == pre + Placeholder("id") + "";
    NoPlaceholderIn("", "id", 0);
    SubstituteOnce(pre, "", "id", "7");
  }
}
