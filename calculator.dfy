/**
 * The `calculator` tool of the tool executor: the acceptance filter of `evaluateExpression`
 * (supabase/functions/execute-tool/index.ts).  The filter compares regex-sanitised copies of
 * the expression; the lemmas below show what it actually accepts.  Evaluating an accepted
 * expression (`new Function`) is a foreign evaluator and stays a parameter.
 */
module Calculator {
  import opened Wrappers
  import opened Text
  import Ordering

  /** The names alternated in `Math\.(sin|cos|...|round)`. */
  const MathNames: seq<string> :=
    ["sin", "cos", "tan", "sqrt", "abs", "pow", "log", "exp", "floor", "ceil", "round"]

  /** `0-9 + - * / ( ) . %`, the characters the sanitiser keeps besides whitespace. */
  predicate Operator(c: char) {
    ('0' <= c <= '9') || c == '+' || c == '-' || c == '*' || c == '/' || c == '(' || c == ')'
    || c == '.' || c == '%'
  }

  /** The letters of `MATHFUNC`, which the second character class also admits. */
  predicate MathLetter(c: char) {
    c == 'M' || c == 'A' || c == 'T' || c == 'H' || c == 'F' || c == 'U' || c == 'N' || c == 'C'
  }

  /** Kept by `/[^0-9+\-*\/().%\s]/g` → "". */
  predicate KeptBySanitizer(c: char) { Operator(c) || IsSpace(c) }

  /** Kept by `/[^0-9+\-*\/().%\sMATHFUNC]/g` → "". */
  predicate KeptWithMath(c: char) { Operator(c) || IsSpace(c) || MathLetter(c) }

  /** Kept by `/\s/g` → "". */
  predicate NotSpace(c: char) { !IsSpace(c) }

  /** The character a final accepted expression may contain. */
  predicate Admitted(c: char) { Operator(c) || MathLetter(c) }

  /** Every character of `w` is admitted. */
  predicate AllAdmitted(w: string) {
    forall i :: 0 <= i < |w| ==> Admitted(w[i])
  }

  /** The math-function name `s` starts with after `Math.`, if any (the names are prefix-free). */
  function MatchedName(s: string): (r: Option<string>)
    ensures r.Some? ==> r.value in MathNames && "Math." + r.value <= s
  {
    NameFrom(s, MathNames)
  }

  function NameFrom(s: string, names: seq<string>): (r: Option<string>)
    ensures r.Some? ==> r.value in names && "Math." + r.value <= s
  {
    if names == [] then None
    else if "Math." + names[0] <= s then Some(names[0])
    else NameFrom(s, names[1..])
  }

  /** `s.replace(/Math\.(sin|...|round)/g, "MATHFUNC")`. */
  function WithMathFunc(s: string): string
    decreases |s|
  {
    if s == [] then []
    else
      match MatchedName(s)
      case Some(n) => "MATHFUNC" + WithMathFunc(s[5 + |n|..])
      case None => [s[0]] + WithMathFunc(s[1..])
  }

  /** `s` starts with `Math.<name>(`. */
  predicate CallAt(s: string) {
    MatchedName(s).Some? && |s| > 5 + |MatchedName(s).value| && s[5 + |MatchedName(s).value|] == '('
  }

  /** `s.replace(/Math\.(sin|...|round)\(/g, "(")`. */
  function ParenCalls(s: string): string
    decreases |s|
  {
    if s == [] then []
    else if CallAt(s) then "(" + ParenCalls(s[6 + |MatchedName(s).value|..])
    else [s[0]] + ParenCalls(s[1..])
  }

  /**
   * The first comparison (line 20): the sanitised text equals the expression with whitespace
   * removed and every `Math.<name>(` shortened to `(`.
   */
  predicate FirstCheck(e: string) {
    Ordering.Filter(e, KeptBySanitizer) == ParenCalls(Ordering.Filter(e, NotSpace))
  }

  /** The acceptance test of `evaluateExpression` exactly as written (lines 19-28). */
  predicate PassesFilter(e: string) {
    var withMath := WithMathFunc(e);
    FirstCheck(e) || Ordering.Filter(withMath, KeptWithMath) == Ordering.Filter(withMath, NotSpace)
  }

  /**
   * The `calculator` case: a missing or empty expression and a rejected one give fixed error
   * texts; an accepted one is handed, unchanged, to the evaluator, whose outcome (a number or
   * an `Error: …` text) is the result.
   */
  function Calculate(expression: Option<string>, evaluate: string -> string): (r: string)
    ensures !Truthy(expression) ==> r == "Error: No expression provided"
    ensures Truthy(expression) && !PassesFilter(expression.value)
            ==> r == "Error: Invalid characters in expression"
    ensures Truthy(expression) && PassesFilter(expression.value) ==> r == evaluate(expression.value)
  {
    if !Truthy(expression) then "Error: No expression provided"
    else if !PassesFilter(expression.value) then "Error: Invalid characters in expression"
    else evaluate(expression.value)
  }

  // ---- proof of what the filter accepts ----

  lemma FilterAgree(s: string, p: char -> bool, q: char -> bool)
    requires forall i :: 0 <= i < |s| ==> p(s[i]) == q(s[i])
    ensures Ordering.Filter(s, p) == Ordering.Filter(s, q)
  {
    if s != [] {
      FilterAgree(s[1..], p, q);
    }
  }

  lemma {:induction false} FilterKeepsAll(s: string, p: char -> bool)
    requires forall i :: 0 <= i < |s| ==> p(s[i])
    ensures Ordering.Filter(s, p) == s
  {
    if s != [] {
      FilterKeepsAll(s[1..], p);
      assert s == [s[0]] + s[1..];
    }
  }

  lemma {:induction false} FilterKeepsCount(s: string, p: char -> bool, c: char)
    requires p(c)
    ensures multiset(Ordering.Filter(s, p))[c] == multiset(s)[c]
  {
    if s != [] {
      FilterKeepsCount(s[1..], p, c);
      assert s == [s[0]] + s[1..];
    }
  }

  /** Equal filterings agree, character by character, on what they keep. */
  lemma FilterEqualAgree(s: string, p: char -> bool, q: char -> bool, c: char)
    requires Ordering.Filter(s, p) == Ordering.Filter(s, q)
    requires c in s
    ensures p(c) == q(c)
  {
    Ordering.FilterMembers(s, p, c);
    Ordering.FilterMembers(s, q, c);
  }

  lemma NamesAreLetters()
    ensures forall n, i :: n in MathNames && 0 <= i < |n| ==> 'a' <= n[i] <= 'z'
  {
  }

  lemma {:induction false} ParenCallsChars(s: string, c: char)
    requires c in ParenCalls(s)
    ensures c in s || c == '('
    decreases |s|
  {
    if s != [] {
      if CallAt(s) {
        var k := 6 + |MatchedName(s).value|;
        if c != '(' {
          ParenCallsChars(s[k..], c);
          assert s == s[..k] + s[k..];
        }
      } else {
        if c != s[0] {
          ParenCallsChars(s[1..], c);
          assert s == [s[0]] + s[1..];
        }
      }
    }
  }

  lemma CallHasDot(s: string)
    requires CallAt(s)
    ensures s[4] == '.'
  {
    var n := MatchedName(s).value;
    assert s[4] == ("Math." + n)[4];
  }

  lemma DotsSplit(s: string, k: nat)
    requires 4 < k <= |s| && s[4] == '.'
    ensures multiset(s)['.'] == multiset(s[..k])['.'] + multiset(s[k..])['.']
    ensures multiset(s[..k])['.'] >= 1
  {
    assert s == s[..k] + s[k..];
    assert s[..k][4] == '.';
  }

  /** Every `Math.<name>(` that is replaced takes its `.` with it. */
  lemma {:induction false} ParenCallsDots(s: string)
    ensures multiset(ParenCalls(s))['.'] <= multiset(s)['.']
    ensures ParenCalls(s) != s ==> multiset(ParenCalls(s))['.'] < multiset(s)['.']
    decreases |s|
  {
    if s != [] {
      if CallAt(s) {
        var k := 6 + |MatchedName(s).value|;
        ParenCallsDots(s[k..]);
        CallHasDot(s);
        DotsSplit(s, k);
        assert ParenCalls(s) == "(" + ParenCalls(s[k..]);
        assert multiset(ParenCalls(s))['.'] == multiset(ParenCalls(s[k..]))['.'];
      } else {
        ParenCallsDots(s[1..]);
        assert s == [s[0]] + s[1..];
      }
    }
  }

  lemma MatchStartsWithM(s: string)
    ensures MatchedName(s).Some? ==> |s| > 0 && s[0] == 'M'
  {
    if MatchedName(s).Some? {
      var n := MatchedName(s).value;
      assert s[0] == ("Math." + n)[0];
    }
  }

  lemma {:induction false} WithMathFuncIdentity(s: string)
    requires forall i :: 0 <= i < |s| ==> s[i] != 'M'
    ensures WithMathFunc(s) == s
    decreases |s|
  {
    if s != [] {
      MatchStartsWithM(s);
      WithMathFuncIdentity(s[1..]);
      assert s == [s[0]] + s[1..];
    }
  }

  /** A character that can occur neither in `Math.<name>` nor in `MATHFUNC`. */
  predicate Untouched(c: char) {
    !MathLetter(c) && c != 'M' && c != 'a' && c != 't' && c != 'h' && c != '.' && !('a' <= c <= 'z')
  }

  lemma SpaceUntouched(c: char)
    requires IsSpace(c)
    ensures Untouched(c)
  {
  }

  lemma MatchedPrefixUntouched(s: string, c: char)
    requires MatchedName(s).Some? && Untouched(c)
    ensures c !in s[..5 + |MatchedName(s).value|]
  {
    var n := MatchedName(s).value;
    NamesAreLetters();
    assert s[..5 + |n|] == "Math." + n;
  }

  lemma MathFuncLacks(c: char)
    requires Untouched(c)
    ensures c !in "MATHFUNC"
  {
    MathFuncAdmitted();
  }

  lemma InConcat(c: char, a: string, b: string)
    ensures c in a + b <==> c in a || c in b
  {
  }

  /** The `MATHFUNC` replacement neither adds nor removes other characters. */
  lemma {:induction false} WithMathFuncUntouched(s: string, c: char)
    requires Untouched(c)
    ensures c in WithMathFunc(s) <==> c in s
    decreases |s|
  {
    if s != [] {
      if MatchedName(s).Some? {
        var k := 5 + |MatchedName(s).value|;
        WithMathFuncUntouched(s[k..], c);
        MatchedPrefixUntouched(s, c);
        MathFuncLacks(c);
        assert s == s[..k] + s[k..];
        InConcat(c, "MATHFUNC", WithMathFunc(s[k..]));
        InConcat(c, s[..k], s[k..]);
      } else {
        WithMathFuncUntouched(s[1..], c);
        assert s == [s[0]] + s[1..];
      }
    }
  }

  lemma SecondCheckOnlyAdmitted(w: string)
    requires Ordering.Filter(w, KeptWithMath) == Ordering.Filter(w, NotSpace)
    ensures AllAdmitted(w)
  {
    forall i | 0 <= i < |w| ensures Admitted(w[i]) {
      FilterEqualAgree(w, KeptWithMath, NotSpace, w[i]);
    }
  }

  lemma SecondCheckAdmitted(w: string)
    requires AllAdmitted(w)
    ensures Ordering.Filter(w, KeptWithMath) == Ordering.Filter(w, NotSpace)
  {
    FilterAgree(w, KeptWithMath, NotSpace);
  }

  /** The second comparison (lines 22-25) holds exactly when every character is admitted. */
  lemma SecondCheck(w: string)
    ensures Ordering.Filter(w, KeptWithMath) == Ordering.Filter(w, NotSpace)
            <==> AllAdmitted(w)
  {
    if Ordering.Filter(w, KeptWithMath) == Ordering.Filter(w, NotSpace) {
      SecondCheckOnlyAdmitted(w);
    }
    if AllAdmitted(w) {
      SecondCheckAdmitted(w);
    }
  }

  /** The sanitiser keeps whitespace that the other side has removed. */
  lemma FirstCheckNoSpace(e: string)
    requires FirstCheck(e)
    ensures forall i :: 0 <= i < |e| ==> !IsSpace(e[i])
  {
    var x := Ordering.Filter(e, NotSpace);
    forall i | 0 <= i < |e| ensures !IsSpace(e[i]) {
      if IsSpace(e[i]) {
        Ordering.FilterMembers(e, KeptBySanitizer, e[i]);
        ParenCallsChars(x, e[i]);
        Ordering.FilterMembers(e, NotSpace, e[i]);
      }
    }
  }

  /** Without whitespace the first comparison reads `keep operators of e == ParenCalls(e)`. */
  lemma FirstCheckUnspaced(e: string)
    requires FirstCheck(e)
    ensures Ordering.Filter(e, Operator) == ParenCalls(e)
  {
    FirstCheckNoSpace(e);
    FilterKeepsAll(e, NotSpace);
    FilterAgree(e, KeptBySanitizer, Operator);
  }

  /** Replacing a call would lose a `.` that the operator filter keeps, so nothing is replaced. */
  lemma FirstCheckOperators(e: string)
    requires FirstCheck(e)
    ensures forall i :: 0 <= i < |e| ==> Operator(e[i])
  {
    FirstCheckUnspaced(e);
    FilterKeepsCount(e, Operator, '.');
    ParenCallsDots(e);
    assert Ordering.Filter(e, Operator) == e;
  }

  /** Whenever the first comparison (line 20) holds, so does the second. */
  lemma FirstCheckImpliesSecond(e: string)
    requires FirstCheck(e)
    ensures AllAdmitted(WithMathFunc(e))
  {
    FirstCheckOperators(e);
    WithMathFuncIdentity(e);
  }

  lemma OperatorNotSpace(c: char)
    requires Operator(c)
    ensures !IsSpace(c) && Admitted(c)
  {
  }

  lemma AdmittedIsNotSpace(c: char)
    ensures Admitted(c) ==> !IsSpace(c)
  {
  }

  lemma UntouchedAdmitted(e: string, w: string, i: nat)
    requires w == WithMathFunc(e) && AllAdmitted(w) && i < |e| && Untouched(e[i])
    ensures Admitted(e[i])
  {
    WithMathFuncUntouched(e, e[i]);
  }

  lemma SpaceAbsentAt(e: string, w: string, i: nat)
    requires w == WithMathFunc(e) && AllAdmitted(w) && i < |e|
    ensures !IsSpace(e[i])
  {
    AdmittedIsNotSpace(e[i]);
    if IsSpace(e[i]) {
      SpaceUntouched(e[i]);
      UntouchedAdmitted(e, w, i);
    }
  }

  /** An admitted `MATHFUNC` form leaves no whitespace in the expression. */
  lemma AdmittedNoSpace(e: string, w: string)
    requires w == WithMathFunc(e) && AllAdmitted(w)
    ensures forall i :: 0 <= i < |e| ==> !IsSpace(e[i])
  {
    forall i: nat | i < |e| {
      SpaceAbsentAt(e, w, i);
    }
  }

  lemma AcceptedAdmitted(e: string)
    requires PassesFilter(e)
    ensures AllAdmitted(WithMathFunc(e))
  {
    if FirstCheck(e) {
      FirstCheckImpliesSecond(e);
    } else {
      SecondCheckOnlyAdmitted(WithMathFunc(e));
    }
  }

  lemma AdmittedAccepted(e: string)
    requires AllAdmitted(WithMathFunc(e))
    ensures PassesFilter(e)
  {
    SecondCheckAdmitted(WithMathFunc(e));
  }

  /**
   * What the filter accepts: an expression passes iff it contains no whitespace and, once every
   * `Math.<name>` is replaced by `MATHFUNC`, each character is an operator, a digit, or a letter
   * of `MATHFUNC`.
   */
  lemma FilterAcceptsIff(e: string)
    ensures PassesFilter(e)
            <==> (forall i :: 0 <= i < |e| ==> !IsSpace(e[i])) && AllAdmitted(WithMathFunc(e))
  {
    if PassesFilter(e) {
      AcceptedAdmitted(e);
      AdmittedNoSpace(e, WithMathFunc(e));
    }
    if AllAdmitted(WithMathFunc(e)) {
      AdmittedAccepted(e);
    }
  }

  /** Any whitespace in the expression makes the calculator refuse it. */
  lemma SpacedRejected(e: string, i: nat, evaluate: string -> string)
    requires i < |e| && IsSpace(e[i])
    ensures Calculate(Some(e), evaluate) == "Error: Invalid characters in expression"
  {
    FilterAcceptsIff(e);
  }

  /** A character outside the admitted set, with no `Math.` call in sight, is refused. */
  lemma StrayCharacterRejected(e: string, i: nat, evaluate: string -> string)
    requires forall j :: 0 <= j < |e| ==> e[j] != 'M'
    requires i < |e| && !Admitted(e[i])
    ensures Calculate(Some(e), evaluate) == "Error: Invalid characters in expression"
  {
    WithMathFuncIdentity(e);
    FilterAcceptsIff(e);
  }

  /** A non-empty arithmetic expression reaches the evaluator unchanged. */
  lemma ArithmeticEvaluated(e: string, evaluate: string -> string)
    requires e != [] && forall j :: 0 <= j < |e| ==> Operator(e[j])
    ensures Calculate(Some(e), evaluate) == evaluate(e)
  {
    forall j | 0 <= j < |e| ensures !IsSpace(e[j]) && Admitted(e[j]) && e[j] != 'M' {
      OperatorNotSpace(e[j]);
    }
    WithMathFuncIdentity(e);
    AdmittedAccepted(e);
  }

  /** The alternation matches the first name that fits. */
  lemma {:induction false} NameFromFirst(s: string, names: seq<string>, k: nat)
    requires k < |names| && "Math." + names[k] <= s
    requires forall j :: 0 <= j < k ==> !("Math." + names[j] <= s)
    ensures NameFrom(s, names) == Some(names[k])
  {
    if k > 0 {
      assert !("Math." + names[0] <= s);
      NameFromFirst(s, names[1..], k - 1);
    }
  }

  /** A prefix that differs from `s` at some position is not a prefix of `s`. */
  lemma DiffersAt(p: string, s: string, i: nat)
    requires i < |p| && i < |s| && p[i] != s[i]
    ensures !(p <= s)
  {
  }

  lemma SqrtMatched(arg: string)
    ensures MatchedName("Math.sqrt" + arg) == Some("sqrt")
  {
    var e := "Math.sqrt" + arg;
    var names := MathNames;
    assert names[0] == "sin" && names[1] == "cos" && names[2] == "tan" && names[3] == "sqrt";
    assert e[5] == 's' && e[6] == 'q';
    DiffersAt("Math." + names[0], e, 6);
    DiffersAt("Math." + names[1], e, 5);
    DiffersAt("Math." + names[2], e, 5);
    assert "Math.sqrt" <= e;
    NameFromFirst(e, names, 3);
  }

  lemma SqrtReplaced(arg: string)
    ensures WithMathFunc("Math.sqrt" + arg) == "MATHFUNC" + WithMathFunc(arg)
  {
    SqrtMatched(arg);
    assert ("Math.sqrt" + arg)[9..] == arg;
  }

  /** The replacement text consists of admitted letters only. */
  lemma MathFuncAdmitted()
    ensures AllAdmitted("MATHFUNC")
  {
    var f := "MATHFUNC";
    assert f == ['M', 'A', 'T', 'H', 'F', 'U', 'N', 'C'];
  }

  lemma ConcatAdmitted(a: string, b: string)
    requires AllAdmitted(a) && AllAdmitted(b)
    ensures AllAdmitted(a + b)
  {
    forall i | 0 <= i < |a + b| ensures Admitted((a + b)[i]) {
      if i >= |a| {
        assert (a + b)[i] == b[i - |a|];
      }
    }
  }

  /** `Math.sqrt` applied to an arithmetic argument reaches the evaluator unchanged. */
  lemma SqrtEvaluated(arg: string, evaluate: string -> string)
    requires forall j :: 0 <= j < |arg| ==> Operator(arg[j])
    ensures Calculate(Some("Math.sqrt" + arg), evaluate) == evaluate("Math.sqrt" + arg)
  {
    var e := "Math.sqrt" + arg;
    forall j | 0 <= j < |arg| ensures Admitted(arg[j]) && arg[j] != 'M' {
      OperatorNotSpace(arg[j]);
    }
    WithMathFuncIdentity(arg);
    SqrtReplaced(arg);
    MathFuncAdmitted();
    ConcatAdmitted("MATHFUNC", arg);
    AdmittedAccepted(e);
  }
}
