/** One side of the swap form (src/components/SwapInput.tsx): its optional
    props with their defaults, the "Balance: ..." max shortcut and the amount
    input, each reduced to the value it hands to `onAmountChange`. */
module SwapInput {
  import opened Wrappers
  import opened Tokens

  /** `String.prototype.indexOf` for a one-character pattern: the first
      position holding `c`, or None when `c` does not occur. */
  function IndexOf(s: string, c: char): (r: Option<nat>)
    ensures r.Some? ==> r.value < |s| && s[r.value] == c && c !in s[..r.value]
    ensures r.None? <==> c !in s
  {
    if |s| == 0 then None
    else if s[0] == c then Some(0)
    else
      match IndexOf(s[1..], c)
      case None => None
      case Some(i) =>
        assert s[..i + 1] == [s[0]] + s[1..][..i];
        Some(i + 1)
  }

  /** `s.replace(c, "")` with a string pattern: JavaScript replaces only the
      first occurrence. */
  function RemoveFirst(s: string, c: char): (r: string)
    ensures |r| == if c in s then |s| - 1 else |s|
  {
    match IndexOf(s, c)
    case None => s
    case Some(i) => s[..i] + s[i + 1..]
  }

  /** A string without the character passes through unchanged. */
  lemma RemoveFirstAbsent(s: string, c: char)
    requires c !in s
    ensures RemoveFirst(s, c) == s
  {
  }

  /** When position i holds the first `c`, the result is s with exactly that
      position cut out: everything before it and everything after it
      (including any later `c`) is kept in order. */
  lemma RemoveFirstAt(s: string, c: char, i: nat)
    requires i < |s| && s[i] == c && c !in s[..i]
    ensures RemoveFirst(s, c) == s[..i] + s[i + 1..]
  {
  }

  /** Exactly one occurrence of `c` disappears when there is one, and no
      other character is touched. */
  lemma RemoveFirstCounts(s: string, c: char, d: char)
    ensures multiset(RemoveFirst(s, c))[d] ==
            if d == c && c in s then multiset(s)[d] - 1 else multiset(s)[d]
  {
    match IndexOf(s, c)
    case None =>
    case Some(i) =>
      assert s == s[..i] + [s[i]] + s[i + 1..];
      assert multiset(s) == multiset(s[..i]) + multiset([s[i]]) + multiset(s[i + 1..]);
  }

  /** The DEXT balance loses its thousands separator. */
  lemma RemoveFirstDextBalance()
    ensures RemoveFirst("1,250.00", ',') == "1250.00"
  {
    var s := "1,250.00";
    assert s[..1] == "1" && s[2..] == "250.00";
    RemoveFirstAt(s, ',', 1);
  }

  /** Only the first of several separators goes. */
  lemma RemoveFirstKeepsSecondSeparator()
    ensures RemoveFirst("1,234,567", ',') == "1234,567"
  {
    var s := "1,234,567";
    assert s[..1] == "1" && s[2..] == "234,567";
    RemoveFirstAt(s, ',', 1);
  }

  /** The two optional flags of a SwapInput, after defaulting. */
  datatype InputProps = InputProps(readOnly: bool, showBalance: bool)

  /** Applies the destructuring defaults `readOnly = false` and
      `showBalance = false` to the props a caller passed (None = omitted). */
  function ResolveProps(readOnly: Option<bool>, showBalance: Option<bool>): (p: InputProps)
    ensures p.readOnly <==> readOnly == Some(true)
    ensures p.showBalance <==> showBalance == Some(true)
  {
    InputProps(readOnly.GetOr(false), showBalance.GetOr(false))
  }

  /** Whether the "Balance: ..." button (which triggers the max shortcut) is
      rendered at all. */
  predicate ShowsBalanceButton(p: InputProps, token: Token): (r: bool)
    ensures !p.showBalance ==> !r
    ensures r ==> token.balance.Some? && |token.balance.value| > 0
  {
    p.showBalance && Truthy(token.balance)
  }

  /** `handleMaxClick`: the new amount it passes to `onAmountChange`, or
      None when its guard (a truthy balance on an editable field) fails. */
  function MaxClick(p: InputProps, token: Token): (r: Option<string>)
    ensures r.Some? <==> Truthy(token.balance) && !p.readOnly
    ensures r.Some? ==> r.value == RemoveFirst(token.balance.value, ',')
  {
    if Truthy(token.balance) && !p.readOnly then Some(RemoveFirst(token.balance.value, ','))
    else None
  }

  /** What the user can do to a SwapInput's amount: type into the input, or
      click the balance button. */
  datatype InputEvent = Typed(value: string) | BalanceClicked

  /** The value a SwapInput hands to `onAmountChange` for an event, or None
      when it does not call back. */
  function OnEvent(p: InputProps, token: Token, e: InputEvent): (r: Option<string>)
    ensures e.Typed? ==> r == Some(e.value)
    ensures e.BalanceClicked? && (p.readOnly || !Truthy(token.balance)) ==> r == None
  {
    match e
    case Typed(v) => Some(v)
    case BalanceClicked => MaxClick(p, token)
  }

  /** A rendered balance button on an editable field always fires, with the
      balance minus its first comma, one character shorter exactly when the
      balance contains a comma. */
  lemma BalanceButtonFires(p: InputProps, token: Token)
    requires ShowsBalanceButton(p, token) && !p.readOnly
    ensures OnEvent(p, token, BalanceClicked).Some?
    ensures var b := token.balance.value;
            var r := OnEvent(p, token, BalanceClicked).value;
            |r| == (if ',' in b then |b| - 1 else |b|) &&
            multiset(r)[','] == (if ',' in b then multiset(b)[','] - 1 else 0)
  {
    RemoveFirstCounts(token.balance.value, ',', ',');
  }
}
