/** The swap widget's pair state and its handlers
    (src/components/SwapWidget.tsx, lines 24-113). The widget owns six state
    cells; its handlers and the two SwapInput sides it renders update them.
    The "To" amount is never derived from the "From" amount: the widget holds
    no exchange rates and computes no quote. */
module Widget {
  import opened Wrappers
  import opened Tokens
  import opened SwapInput

  /** The title and description handed to the toast collaborator. */
  datatype Notification = Notification(title: string, description: string)

  /** A snapshot of the widget's six state cells. */
  datatype PairState = PairState(
    fromToken: Token, toToken: Token,
    fromAmount: string, toAmount: string,
    isConnected: bool, showSettings: bool)

  /** The `useState` initial values: ETH -> DEXT, "1" -> "0.0",
      disconnected, settings panel hidden. */
  function InitialState(): (s: PairState)
    ensures s.fromToken == Catalog()[0] && s.toToken == Catalog()[1]
    ensures s.fromToken.symbol == "ETH" && s.toToken.symbol == "DEXT"
    ensures s.fromAmount == "1" && s.toAmount == "0.0"
    ensures !s.isConnected && !s.showSettings
  {
    PairState(Catalog()[0], Catalog()[1], "1", "0.0", false, false)
  }

  /** Both sides hold tokens offered by the token selector. */
  predicate InCatalog(s: PairState) {
    s.fromToken in Catalog() && s.toToken in Catalog()
  }

  /** The "From" side is rendered with `showBalance` and an editable amount. */
  function FromProps(): (p: InputProps)
    ensures p.showBalance && !p.readOnly
  {
    ResolveProps(None, Some(true))
  }

  /** The "To" side is rendered `readOnly` and without a balance button. */
  function ToProps(): (p: InputProps)
    ensures p.readOnly && !p.showBalance
  {
    ResolveProps(Some(true), None)
  }

  /** The notification `handleSwap` raises: its description reports the
      two amounts and the two symbols, each after a fixed word. */
  function SwapNotice(s: PairState): (n: Notification)
    ensures n.title == "Swap Initiated"
    ensures |n.description| == 9 + |s.fromAmount| + 1 + |s.fromToken.symbol| +
                               5 + |s.toAmount| + 1 + |s.toToken.symbol|
  {
    Notification("Swap Initiated",
      "Swapping " + s.fromAmount + " " + s.fromToken.symbol +
      " for " + s.toAmount + " " + s.toToken.symbol)
  }

  /** The notification `handleConnectWallet` raises: fixed text, never
      mistaken for a swap notification. */
  function ConnectNotice(): (n: Notification)
    ensures n.title == "Wallet Connected"
    ensures forall s :: n != SwapNotice(s)
  {
    Notification("Wallet Connected", "Successfully connected your wallet")
  }

  /** Everything a user can do to the widget. The primary button is the
      "Connect wallet" button while disconnected and the "Swap" button once
      connected; only one of them is rendered at a time. */
  datatype Event =
    | FlipSides
    | FromInput(fromEvent: InputEvent)
    | ToInput(toEvent: InputEvent)
    | SelectFrom(fromChoice: Token)
    | SelectTo(toChoice: Token)
    | PrimaryPressed
    | SettingsPressed

  datatype StepResult = StepResult(state: PairState, notice: Option<Notification>)

  /** The effect of one event on the state, and the toast it raises. Only the
      primary button raises a toast; only it touches `isConnected`, and only
      to set it; the "To" amount moves only by a flip or by typing into it. */
  function Step(s: PairState, e: Event): (r: StepResult)
    ensures r.notice.Some? <==> e == PrimaryPressed
    ensures r.state.isConnected <==> s.isConnected || e == PrimaryPressed
    ensures r.state.showSettings <==> (s.showSettings != (e == SettingsPressed))
    ensures !WritesToAmount(e) ==> r.state.toAmount == s.toAmount
  {
    match e
    case FlipSides =>
      StepResult(s.(fromToken := s.toToken, toToken := s.fromToken,
                    fromAmount := s.toAmount, toAmount := s.fromAmount), None)
    case FromInput(ie) =>
      (match OnEvent(FromProps(), s.fromToken, ie)
       case Some(v) => StepResult(s.(fromAmount := v), None)
       case None => StepResult(s, None))
    case ToInput(ie) =>
      (match OnEvent(ToProps(), s.toToken, ie)
       case Some(v) => StepResult(s.(toAmount := v), None)
       case None => StepResult(s, None))
    case SelectFrom(t) => StepResult(s.(fromToken := t), None)
    case SelectTo(t) => StepResult(s.(toToken := t), None)
    case PrimaryPressed =>
      if s.isConnected then StepResult(s, Some(SwapNotice(s)))
      else StepResult(s.(isConnected := true), Some(ConnectNotice()))
    case SettingsPressed => StepResult(s.(showSettings := !s.showSettings), None)
  }

  /** The state after a sequence of events, in order. */
  function Run(s: PairState, events: seq<Event>): PairState
    decreases |events|
  {
    if events == [] then s else Run(Step(s, events[0]).state, events[1..])
  }

  /** Selections made through the token selector. */
  predicate FromCatalog(events: seq<Event>) {
    forall i :: 0 <= i < |events| ==>
      (events[i].SelectFrom? ==> events[i].fromChoice in Catalog()) &&
      (events[i].SelectTo? ==> events[i].toChoice in Catalog())
  }

  /** Events that can write the "To" amount: a flip, or typing into the
      read-only "To" field. */
  predicate WritesToAmount(e: Event) {
    e.FlipSides? || (e.ToInput? && e.toEvent.Typed?)
  }

  // ---------------------------------------------------------------------
  // Properties of single events

  /** Flipping twice restores every field. */
  lemma FlipInvolution(s: PairState)
    ensures Step(Step(s, FlipSides).state, FlipSides).state == s
  {
  }

  /** Typing the same "From" amount twice leaves the state as after the
      first time. */
  lemma FromInputIdempotent(s: PairState, v: string)
    ensures var s1 := Step(s, FromInput(Typed(v))).state;
            Step(s1, FromInput(Typed(v))).state == s1
  {
  }

  /** Pressing the primary button while disconnected connects, and pressing
      it again raises the swap notification without changing anything. */
  lemma ConnectThenSwap(s: PairState)
    requires !s.isConnected
    ensures var r1 := Step(s, PrimaryPressed);
            r1.state == s.(isConnected := true) && r1.notice == Some(ConnectNotice()) &&
            var r2 := Step(r1.state, PrimaryPressed);
            r2.state == r1.state && r2.notice == Some(SwapNotice(r1.state))
  {
  }

  /** The max shortcut never fires on the "To" side, whatever its token. */
  lemma ToSideMaxInert(t: Token)
    ensures !ShowsBalanceButton(ToProps(), t)
    ensures OnEvent(ToProps(), t, BalanceClicked) == None
  {
  }

  /** On the "From" side a token with a balance shows the balance button,
      and clicking it sets the amount to the balance minus its first comma. */
  lemma FromSideMaxFires(s: PairState)
    requires Truthy(s.fromToken.balance)
    ensures ShowsBalanceButton(FromProps(), s.fromToken)
    ensures Step(s, FromInput(BalanceClicked)).state ==
            s.(fromAmount := RemoveFirst(s.fromToken.balance.value, ','))
  {
  }

  /** With DEXT on the "From" side the max shortcut writes "1250.00". */
  lemma DextMaxClick(s: PairState)
    requires s.fromToken == Catalog()[1]
    ensures Step(s, FromInput(BalanceClicked)).state.fromAmount == "1250.00"
  {
    RemoveFirstDextBalance();
  }

  /** The swap notification reports only the two amounts and the two
      symbols: token names, icons, balances, the connection flag and the
      settings flag do not affect it. */
  lemma SwapNoticeOnlyPair(s1: PairState, s2: PairState)
    requires s1.fromAmount == s2.fromAmount && s1.toAmount == s2.toAmount
    requires s1.fromToken.symbol == s2.fromToken.symbol && s1.toToken.symbol == s2.toToken.symbol
    ensures SwapNotice(s1) == SwapNotice(s2)
  {
  }

  /** While both sides hold catalog tokens, the "From" side always shows the
      balance button, and clicking it sets only `fromAmount`, to the balance
      minus its first comma. */
  lemma CatalogFromSideMaxFires(s: PairState)
    requires InCatalog(s)
    ensures ShowsBalanceButton(FromProps(), s.fromToken)
    ensures s.fromToken.balance.Some? &&
            Step(s, FromInput(BalanceClicked)).state ==
            s.(fromAmount := RemoveFirst(s.fromToken.balance.value, ','))
  {
    FromSideMaxFires(s);
  }

  // ---------------------------------------------------------------------
  // Properties of event sequences

  /** No event disconnects the wallet. */
  lemma {:induction false} RunKeepsConnected(s: PairState, events: seq<Event>)
    requires s.isConnected
    ensures Run(s, events).isConnected
    decreases |events|
  {
    if events != [] {
      RunKeepsConnected(Step(s, events[0]).state, events[1..]);
    }
  }

  /** Pressing the primary button anywhere in a sequence leaves the wallet
      connected at its end. */
  lemma {:induction false} RunConnects(s: PairState, events: seq<Event>)
    requires PrimaryPressed in events
    ensures Run(s, events).isConnected
    decreases |events|
  {
    if events[0] == PrimaryPressed {
      RunKeepsConnected(Step(s, events[0]).state, events[1..]);
    } else {
      assert PrimaryPressed in events[1..];
      RunConnects(Step(s, events[0]).state, events[1..]);
    }
  }

  /** The "To" amount is never recomputed: whatever happens to the "From"
      amount and the tokens, it changes only by a flip or by typing into the
      "To" field itself. */
  lemma {:induction false} RunKeepsToAmount(s: PairState, events: seq<Event>)
    requires forall i :: 0 <= i < |events| ==> !WritesToAmount(events[i])
    ensures Run(s, events).toAmount == s.toAmount
    decreases |events|
  {
    if events != [] {
      RunKeepsToAmount(Step(s, events[0]).state, events[1..]);
    }
  }

  /** Both sides keep holding catalog tokens. */
  lemma {:induction false} RunKeepsInCatalog(s: PairState, events: seq<Event>)
    requires InCatalog(s) && FromCatalog(events)
    ensures InCatalog(Run(s, events))
    decreases |events|
  {
    if events != [] {
      RunKeepsInCatalog(Step(s, events[0]).state, events[1..]);
    }
  }

  /** An even number of flips and nothing else restores the state. */
  lemma {:induction false} RunFlipsPairwise(s: PairState, n: nat)
    ensures Run(s, seq(2 * n, _ => FlipSides)) == s
    decreases n
  {
    if n > 0 {
      var flips := seq(2 * n, _ => FlipSides);
      assert flips[1..][1..] == seq(2 * (n - 1), _ => FlipSides);
      FlipInvolution(s);
      RunFlipsPairwise(s, n - 1);
    }
  }

  /** The widget itself: six state cells updated in place by its handlers. */
  class SwapWidget {
    var fromToken: Token
    var toToken: Token
    var fromAmount: string
    var toAmount: string
    var isConnected: bool
    var showSettings: bool

    /** The current values of the six cells. */
    function State(): PairState
      reads this
    {
      PairState(fromToken, toToken, fromAmount, toAmount, isConnected, showSettings)
    }

    predicate Valid()
      reads this
    {
      InCatalog(State())
    }

    constructor ()
      ensures Valid()
      ensures State() == InitialState()
    {
      fromToken := Catalog()[0];
      toToken := Catalog()[1];
      fromAmount := "1";
      toAmount := "0.0";
      isConnected := false;
      showSettings := false;
    }

    /** `handleSwapTokens`: exchanges the two sides' tokens and amounts
        directly, without recomputing either amount. */
    method SwapTokens()
      requires Valid()
      modifies this
      ensures Valid()
      ensures fromToken == old(toToken) && toToken == old(fromToken)
      ensures fromAmount == old(toAmount) && toAmount == old(fromAmount)
      ensures isConnected == old(isConnected) && showSettings == old(showSettings)
      ensures State() == Step(old(State()), FlipSides).state
    {
      var tempToken := fromToken;
      var tempAmount := fromAmount;
      fromToken := toToken;
      toToken := tempToken;
      fromAmount := toAmount;
      toAmount := tempAmount;
    }

    /** `setFromAmount`, wired to the "From" side's `onAmountChange`. */
    method SetFromAmount(amount: string)
      requires Valid()
      modifies this
      ensures Valid()
      ensures State() == old(State()).(fromAmount := amount)
    {
      fromAmount := amount;
    }

    /** `setToAmount`, wired to the "To" side's `onAmountChange`. */
    method SetToAmount(amount: string)
      requires Valid()
      modifies this
      ensures Valid()
      ensures State() == old(State()).(toAmount := amount)
    {
      toAmount := amount;
    }

    /** `setFromToken`: replaces the "From" token only, even when it equals
        the "To" token. */
    method SetFromToken(t: Token)
      requires Valid() && t in Catalog()
      modifies this
      ensures Valid()
      ensures State() == old(State()).(fromToken := t)
      ensures State() == Step(old(State()), SelectFrom(t)).state
    {
      fromToken := t;
    }

    /** `setToToken`: replaces the "To" token only, even when it equals the
        "From" token. */
    method SetToToken(t: Token)
      requires Valid() && t in Catalog()
      modifies this
      ensures Valid()
      ensures State() == old(State()).(toToken := t)
      ensures State() == Step(old(State()), SelectTo(t)).state
    {
      toToken := t;
    }

    /** The "From" SwapInput: forwards typed text, or the max shortcut's
        value, to `setFromAmount`. */
    method FromAmountEvent(e: InputEvent)
      requires Valid()
      modifies this
      ensures Valid()
      ensures State() == Step(old(State()), FromInput(e)).state
      ensures e.Typed? ==> fromAmount == e.value
      ensures e.BalanceClicked? ==> old(fromToken).balance.Some? &&
                                    fromAmount == RemoveFirst(old(fromToken).balance.value, ',')
      ensures toAmount == old(toAmount)
    {
      if e.BalanceClicked? {
        CatalogFromSideMaxFires(State());
      }
      var change := OnEvent(FromProps(), fromToken, e);
      if change.Some? {
        SetFromAmount(change.value);
      }
    }

    /** The "To" SwapInput: forwards typed text to `setToAmount`; its max
        shortcut is disabled by `readOnly`. */
    method ToAmountEvent(e: InputEvent)
      requires Valid()
      modifies this
      ensures Valid()
      ensures State() == Step(old(State()), ToInput(e)).state
      ensures e.BalanceClicked? ==> State() == old(State())
    {
      var change := OnEvent(ToProps(), toToken, e);
      if change.Some? {
        SetToAmount(change.value);
      }
    }

    /** `handleConnectWallet`: marks the wallet connected (idempotently) and
        returns the toast it raises. */
    method ConnectWallet() returns (n: Notification)
      requires Valid()
      modifies this
      ensures Valid()
      ensures State() == old(State()).(isConnected := true)
      ensures n == ConnectNotice()
    {
      isConnected := true;
      n := ConnectNotice();
    }

    /** `handleSwap`: changes nothing and reports the current pair. */
    method Swap() returns (n: Notification)
      ensures n.title == "Swap Initiated"
      ensures n.description == "Swapping " + fromAmount + " " + fromToken.symbol +
                               " for " + toAmount + " " + toToken.symbol
    {
      n := SwapNotice(State());
    }

    /** The primary button: "Connect wallet" while disconnected, "Swap"
        once connected. */
    method PressPrimary() returns (n: Notification)
      requires Valid()
      modifies this
      ensures Valid()
      ensures Step(old(State()), PrimaryPressed) == StepResult(State(), Some(n))
    {
      if !isConnected {
        n := ConnectWallet();
      } else {
        n := Swap();
      }
    }

    /** The settings button: shows or hides the settings panel. */
    method ToggleSettings()
      requires Valid()
      modifies this
      ensures Valid()
      ensures State() == old(State()).(showSettings := !old(showSettings))
      ensures State() == Step(old(State()), SettingsPressed).state
    {
      showSettings := !showSettings;
    }
  }
}
