// The idempotency key that `_bind_idempotency` (app/infrastructure/adapters/model_gateway.py) gives
// to a proposal call: one per run, step and tool.
module Keys {
  import opened Wrappers
  import opened Contracts

  const DIGITS := "0123456789"

  function Decimal(n: nat): (s: string)
    ensures |s| > 0 && ':' !in s
  {
    if n < 10 then [DIGITS[n]] else Decimal(n / 10) + [DIGITS[n % 10]]
  }

  function BoundKey(runId: string, step: nat, name: string): string {
    runId + ":step:" + Decimal(step) + ":" + name + ":v2"
  }

  const PROPOSE := "propose_"

  predicate IsProposalName(name: string) { PROPOSE <= name }

  function BindIdempotency(action: ModelAction, runId: string, step: nat): ModelAction {
    if action.toolCall.None? || !IsProposalName(action.toolCall.value.name) then action
    else
      var call := action.toolCall.value;
      action.(toolCall := Some(call.(key := Some(BoundKey(runId, step, call.name)))))
  }

  lemma {:induction false} DecimalInjective(m: nat, n: nat)
    requires Decimal(m) == Decimal(n)
    ensures m == n
  {
    var a, b := Decimal(m), Decimal(n);
    if m >= 10 && n >= 10 {
      assert a[..|a| - 1] == Decimal(m / 10) && b[..|b| - 1] == Decimal(n / 10);
      DecimalInjective(m / 10, n / 10);
      assert a[|a| - 1] == DIGITS[m % 10] && b[|b| - 1] == DIGITS[n % 10];
    }
  }

  // A text before the first ':' and the rest after it are determined by the whole.
  lemma {:induction false} SplitAtColon(a: string, x: string, b: string, y: string)
    requires ':' !in a && ':' !in b
    requires a + [':'] + x == b + [':'] + y
    ensures a == b && x == y
  {
    var s := a + [':'] + x;
    assert s[|a|] == ':' && s[|b|] == ':';
    assert forall i | 0 <= i < |a| :: s[i] == a[i];
    assert forall i | 0 <= i < |b| :: s[i] == b[i];
    assert a == s[..|a|] == b;
    assert x == s[|a| + 1..] == y;
  }

  // Distinct steps, and distinct tools of one step, get distinct keys.
  lemma {:induction false} BoundKeyInjective(runId: string, m: nat, n: nat, a: string, b: string)
    requires BoundKey(runId, m, a) == BoundKey(runId, n, b)
    ensures m == n && a == b
  {
    var p := runId + ":step:";
    var s, t := BoundKey(runId, m, a), BoundKey(runId, n, b);
    assert s == p + (Decimal(m) + [':'] + (a + ":v2"));
    assert t == p + (Decimal(n) + [':'] + (b + ":v2"));
    assert s[|p|..] == Decimal(m) + [':'] + (a + ":v2");
    assert t[|p|..] == Decimal(n) + [':'] + (b + ":v2");
    SplitAtColon(Decimal(m), a + ":v2", Decimal(n), b + ":v2");
    assert a == (a + ":v2")[..|a + ":v2"| - 3] == b;
    DecimalInjective(m, n);
  }
}
