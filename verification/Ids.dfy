/**
 Registry keys. The program keys its registry by strings: a conversation ID handed
 out by the upstream, or a generated placeholder `warming:N` for a slot whose session
 is still starting. `Id` separates the two; `RenderInjective` shows that this loses
 nothing as long as no conversation ID has the shape of a placeholder.
 */
module Ids {

  datatype Id = Warming(seqNo: nat) | Conv(name: string)

  const DIGITS: string := "0123456789"
  const PLACEHOLDER: string := "warming:"

  /** The decimal form of `n`, as the formatting verb `%d` and `strconv.Itoa` print it. */
  function Decimal(n: nat): (s: string)
    ensures s != []
    ensures forall i :: 0 <= i < |s| ==> '0' <= s[i] <= '9'
    ensures DecimalValue(s) == n
  {
    if n < 10 then [DIGITS[n]] else Decimal(n / 10) + [DIGITS[n % 10]]
  }

  /** The number a string of decimal digits denotes. */
  function DecimalValue(s: string): nat
    requires forall i :: 0 <= i < |s| ==> '0' <= s[i] <= '9'
  {
    if s == [] then 0
    else 10 * DecimalValue(s[..|s| - 1]) + (s[|s| - 1] as int - '0' as int)
  }

  /** A number is printed without leading zeros. */
  lemma {:induction false} NoLeadingZero(n: nat)
    ensures |Decimal(n)| > 1 ==> Decimal(n)[0] != '0'
    ensures n > 0 ==> Decimal(n)[0] != '0'
  {
    hide DecimalValue;
    if n >= 10 { NoLeadingZero(n / 10); }
  }

  /** The last digit counts once, and all before it ten times. */
  lemma LastDigit(s: string, c: char)
    requires '0' <= c <= '9' && forall i :: 0 <= i < |s| ==> '0' <= s[i] <= '9'
    ensures DecimalValue([c]) == c as int - '0' as int
    ensures DecimalValue(s + [c]) == 10 * DecimalValue(s) + DecimalValue([c])
  {
    assert (s + [c])[..|s|] == s && [c][..0] == [];
  }

  function Render(id: Id): string {
    match id
    case Warming(n) => PLACEHOLDER + Decimal(n)
    case Conv(name) => name
  }

  ghost predicate LooksLikePlaceholder(name: string) {
    exists n: nat :: name == Render(Warming(n))
  }

  /** Two placeholders, or two conversation IDs that are no placeholder, never share a registry key. */
  lemma RenderInjective(a: Id, b: Id)
    requires a.Conv? ==> !LooksLikePlaceholder(a.name)
    requires b.Conv? ==> !LooksLikePlaceholder(b.name)
    ensures Render(a) == Render(b) <==> a == b
  {
    if a.Warming? && b.Warming? && Render(a) == Render(b) {
      assert Decimal(a.seqNo) == Render(a)[|PLACEHOLDER|..] == Render(b)[|PLACEHOLDER|..] == Decimal(b.seqNo);
    }
  }
}
