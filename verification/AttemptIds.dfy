/**
 Identifiers of task attempts. The program prints an attempt as `task[generation]` and uses the
 printed form as a map key; here the key is the pair, and RenderInjective shows that printing
 never confuses two pairs. SortIds is the sorted order of the printed forms.
 */
module AttemptIds {
  import opened Prelude

  datatype AttemptId = AttemptId(taskDefId: string, generation: nat)

  function Digit(n: nat): char
    requires n < 10
  {
    '0' + n as char
  }

  function Decimal(n: nat): (s: string)
    ensures |s| > 0 && forall i :: 0 <= i < |s| ==> '0' <= s[i] <= '9'
  {
    if n < 10 then [Digit(n)] else Decimal(n / 10) + [Digit(n % 10)]
  }

  lemma {:induction false} DecimalInjective(m: nat, n: nat)
    requires Decimal(m) == Decimal(n)
    ensures m == n
  {
    var a, b := Decimal(m), Decimal(n);
    assert a[|a| - 1] == Digit(m % 10) && b[|b| - 1] == Digit(n % 10);
    assert m % 10 == n % 10 by {
      assert Digit(m % 10) as int == '0' as int + m % 10;
      assert Digit(n % 10) as int == '0' as int + n % 10;
    }
    if m >= 10 && n >= 10 {
      assert a[..|a| - 1] == Decimal(m / 10) && b[..|b| - 1] == Decimal(n / 10);
      DecimalInjective(m / 10, n / 10);
    }
  }

  /** The decimal suffix after the last occurrence of a non-digit separator determines the number. */
  lemma SuffixInjective(p: string, q: string, sep: char, m: nat, n: nat)
    requires !('0' <= sep <= '9')
    requires p + [sep] + Decimal(m) == q + [sep] + Decimal(n)
    ensures p == q && m == n
  {
    var s := p + [sep] + Decimal(m);
    var t := q + [sep] + Decimal(n);
    assert s[|p|] == sep && t[|q|] == sep;
    assert forall i :: |p| < i < |s| ==> s[i] == Decimal(m)[i - |p| - 1];
    assert forall i :: |q| < i < |t| ==> t[i] == Decimal(n)[i - |q| - 1];
    assert |p| == |q|;
    assert p == s[..|p|] == t[..|q|] == q;
    assert Decimal(m) == s[|p| + 1..] == t[|q| + 1..] == Decimal(n);
    DecimalInjective(m, n);
  }

  function Render(id: AttemptId): string {
    id.taskDefId + "[" + Decimal(id.generation) + "]"
  }

  lemma RenderInjective(a: AttemptId, b: AttemptId)
    requires Render(a) == Render(b)
    ensures a == b
  {
    var s, t := Render(a), Render(b);
    assert s[..|s| - 1] == a.taskDefId + ['['] + Decimal(a.generation);
    assert t[..|t| - 1] == b.taskDefId + ['['] + Decimal(b.generation);
    SuffixInjective(a.taskDefId, b.taskDefId, '[', a.generation, b.generation);
  }

  /** The number a text of digits stands for. */
  function NumberOf(s: string): int {
    if s == "" then 0 else 10 * NumberOf(s[..|s| - 1]) + (s[|s| - 1] as int - '0' as int)
  }

  lemma {:induction false} DecimalReads(n: nat)
    ensures NumberOf(Decimal(n)) == n && (|Decimal(n)| > 1 ==> Decimal(n)[0] != '0')
  {
    var s := Decimal(n);
    if n < 10 {
      assert s[..0] == "";
    } else {
      DecimalReads(n / 10);
      assert s[..|s| - 1] == Decimal(n / 10);
      if |Decimal(n / 10)| == 1 { SingleDigit(n / 10); }
    }
  }

  lemma SingleDigit(n: nat)
    requires |Decimal(n)| == 1 && n > 0
    ensures Decimal(n)[0] != '0'
  {
  }

  /** The printed form: the task, and behind it in brackets its generation in decimal digits without leading zeros. */
  lemma PrintedForm(id: AttemptId)
    ensures var s, n := Render(id), |id.taskDefId|;
      && |s| >= n + 3 && s[..n] == id.taskDefId && s[n] == '[' && s[|s| - 1] == ']'
      && (forall k :: n < k < |s| - 1 ==> '0' <= s[k] <= '9')
      && (|s| > n + 3 ==> s[n + 1] != '0') && NumberOf(s[n + 1..|s| - 1]) == id.generation
  {
    DecimalReads(id.generation);
    var s, n := Render(id), |id.taskDefId|;
    assert s[n + 1..|s| - 1] == Decimal(id.generation);
  }

  predicate IsFirst(m: AttemptId, s: set<AttemptId>) {
    m in s && forall x :: x in s && x != m ==> Less(Render(m), Render(x))
  }

  lemma {:induction false} FirstExists(s: set<AttemptId>)
    requires s != {}
    ensures exists m :: IsFirst(m, s)
  {
    var x :| x in s;
    var rest := s - {x};
    if rest == {} {
      assert s == {x};
      assert IsFirst(x, s);
    } else {
      FirstExists(rest);
      assert forall y :: y in s ==> y == x || y in rest;
      var m :| IsFirst(m, rest);
      LessTrichotomy(Render(x), Render(m));
      if Render(x) == Render(m) { RenderInjective(x, m); }
      if Less(Render(x), Render(m)) {
        forall y | y in s && y != x ensures Less(Render(x), Render(y)) {
          if y != m { LessTransitive(Render(x), Render(m), Render(y)); }
        }
        assert IsFirst(x, s);
      } else {
        assert IsFirst(m, s);
      }
    }
  }

  lemma FirstUnique(s: set<AttemptId>, m: AttemptId, n: AttemptId)
    requires IsFirst(m, s) && IsFirst(n, s)
    ensures m == n
  {
    LessTrichotomy(Render(m), Render(n));
  }

  function First(s: set<AttemptId>): (m: AttemptId)
    requires s != {}
    ensures IsFirst(m, s)
  {
    FirstExists(s);
    assert forall m, n :: IsFirst(m, s) && IsFirst(n, s) ==> m == n by {
      forall m, n | IsFirst(m, s) && IsFirst(n, s) ensures m == n { FirstUnique(s, m, n); }
    }
    var m :| m in s && IsFirst(m, s);
    m
  }

  /** The ids of a set in the order of their printed forms. */
  function SortIds(s: set<AttemptId>): (r: seq<AttemptId>)
    ensures Distinct(r)
    ensures forall x :: x in r <==> x in s
    ensures forall i, j :: 0 <= i < j < |r| ==> Less(Render(r[i]), Render(r[j]))
  {
    if s == {} then []
    else
      var m := First(s);
      [m] + SortIds(s - {m})
  }
}
