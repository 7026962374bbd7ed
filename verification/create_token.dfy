/** The five-step token-creation wizard (src/components/CreateToken.tsx).

    The component's state (the active step, the form, the loading flag and
    the error message) is one immutable `Wizard` record. Each event handler
    is a total transition function, like the handlers themselves, which do
    not check that the step they are called at is in range. Which buttons
    and controls are on screen at a step is a separate predicate, `Offered`.
    The range of `step` and the other invariants hold only because of that
    gating.
 */
module CreateToken {
  import opened Wrappers
  import Ipfs
  import SolanaToken

  /** Number of wizard steps; the last one, `LastStep`, is Preview & Launch. */
  const StepCount: nat := 5
  const LastStep: nat := StepCount - 1

  const MaxNameLength: nat := 50
  const MaxSymbolLength: nat := 5

  const NameSymbolRequired: string := "Name and symbol are required."
  const LogoRequired: string := "Logo image is required."
  const LogoNotSquare: string := "Logo must be square"
  const ConnectWallet: string := "Please connect your Phantom wallet."
  const LaunchFailed: string := "Launch failed"

  datatype TokenType = Standard | LockedTransfer | Burnable

  datatype Form = Form(
    name: string,
    symbol: string,
    tokenType: TokenType,
    decimals: nat,
    totalSupply: nat,
    imageFile: Option<Ipfs.ImageFile>,
    imagePreview: Option<string>,
    description: string,
    website: string,
    telegram: string,
    twitter: string,
    discord: string,
    freeze: bool,
    mint: bool,
    update: bool,
    donationEnabled: bool,
    donationAmount: real,
    liquidityPercent: int,
    liquiditySol: real,
    slippage: real)

  /** The form the wizard starts with. */
  const InitialForm: Form := Form(
    name := "", symbol := "", tokenType := Standard, decimals := 6, totalSupply := 10_000_000_000,
    imageFile := None, imagePreview := None,
    description := "", website := "", telegram := "", twitter := "", discord := "",
    freeze := true, mint := true, update := true,
    donationEnabled := true, donationAmount := 0.5,
    liquidityPercent := 0, liquiditySol := 0.1, slippage := 0.5)

  /** The form written out again after a successful launch. */
  const ResetForm: Form := Form(
    name := "", symbol := "", tokenType := Standard, decimals := 6, totalSupply := 10_000_000_000,
    imageFile := None, imagePreview := None,
    description := "", website := "", telegram := "", twitter := "", discord := "",
    freeze := true, mint := true, update := true,
    donationEnabled := true, donationAmount := 0.5,
    liquidityPercent := 0, liquiditySol := 0.1, slippage := 0.5)

  datatype Wizard = Wizard(step: int, form: Form, loading: bool, error: Option<string>)

  const Initial: Wizard := Wizard(0, InitialForm, false, None)

  /** A change made through one of the form's controls. */
  datatype Edit =
    | SetName(name: string)
    | SetSymbol(symbol: string)
    | SetDecimals(decimals: nat)
    | SetTotalSupply(totalSupply: nat)
    | SetTokenType(tokenType: TokenType)
    | RemoveImage
    | SetDescription(description: string)
    | SetWebsite(website: string)
    | SetTelegram(telegram: string)
    | SetTwitter(twitter: string)
    | SetDiscord(discord: string)
    | ToggleDonation(enabled: bool)
    | SetDonationAmount(amount: real)
    | SetLiquidityPercent(percent: int)
    | SetLiquiditySol(sol: real)
    | SetSlippage(slippage: real)

  /** Everything that can happen to the component. `Settle` is the
      asynchronous launch finishing with the mint key or an error message. */
  datatype Event =
    | Next
    | Back
    | ChooseImage(file: Option<Ipfs.ImageFile>, objectUrl: string)
    | Change(edit: Edit)
    | Launch(wallet: SolanaToken.Wallet)
    | Settle(outcome: Result<SolanaToken.PublicKey>)

  /** The first step's required fields. */
  predicate BasicInfoComplete(form: Form) {
    form.name != "" && form.symbol != "" && form.imageFile.Some?
  }

  /** `handleNext`: clears the error; at the first step it refuses to move
      while the name, the symbol or the logo is missing. */
  function HandleNext(w: Wizard): (r: Wizard)
    ensures r.form == w.form && r.loading == w.loading
    ensures w.step != 0 ==> r.step == w.step + 1 && r.error.None?
    ensures w.step == 0 && (w.form.name == "" || w.form.symbol == "") ==>
              r.step == 0 && r.error == Some(NameSymbolRequired)
    ensures w.step == 0 && w.form.name != "" && w.form.symbol != "" && w.form.imageFile.None? ==>
              r.step == 0 && r.error == Some(LogoRequired)
    ensures r.step == w.step + 1 <==> w.step != 0 || BasicInfoComplete(w.form)
    ensures r.step != w.step + 1 ==> r.step == w.step
    ensures r.step == w.step + 1 ==> r.error.None?
  {
    var cleared := w.(error := None);
    if w.step == 0 && (w.form.name == "" || w.form.symbol == "") then
      cleared.(error := Some(NameSymbolRequired))
    else if w.step == 0 && w.form.imageFile.None? then
      cleared.(error := Some(LogoRequired))
    else
      cleared.(step := w.step + 1)
  }

  /** `handleBack`: one step back, nothing else changes (not even the error). */
  function HandleBack(w: Wizard): (r: Wizard)
    ensures r.step + 1 == w.step
    ensures r.form == w.form && r.loading == w.loading && r.error == w.error
  {
    w.(step := w.step - 1)
  }

  /** `handleImage`: clears the error, then keeps the chosen file (and its
      preview URL) only if it decodes to a square picture. A non-square
      picture sets an error; a file that does not decode changes nothing more
      (the component has no handler for that). */
  function HandleImage(w: Wizard, file: Option<Ipfs.ImageFile>, objectUrl: string): (r: Wizard)
    ensures r.step == w.step && r.loading == w.loading
    ensures r.form.imageFile != w.form.imageFile || r.form.imagePreview != w.form.imagePreview ==>
              file.Some? && file.value.content.Picture?
              && file.value.content.width == file.value.content.height
    ensures file.Some? && file.value.content.Picture? && file.value.content.width == file.value.content.height ==>
              r.form == w.form.(imageFile := file, imagePreview := Some(objectUrl)) && r.error.None?
    ensures r.error == Some(LogoNotSquare) <==>
              file.Some? && file.value.content.Picture? && file.value.content.width != file.value.content.height
    ensures r.error.Some? ==> r.form == w.form
    ensures !(file.Some? && file.value.content.Picture?) ==> r == w.(error := None)
  {
    var cleared := w.(error := None);
    match file
    case None => cleared
    case Some(f) =>
      match f.content
      case Picture(width, height) =>
        if width != height then cleared.(error := Some(LogoNotSquare))
        else cleared.(form := cleared.form.(imageFile := Some(f), imagePreview := Some(objectUrl)))
      case _ => cleared
  }

  /** `updateField` through one control. Enabling the donation switch also
      resets the amount to 0.5 SOL. */
  function ApplyEdit(form: Form, e: Edit): (r: Form)
    ensures r.freeze == form.freeze && r.mint == form.mint && r.update == form.update
    ensures e.ToggleDonation? ==> r.donationEnabled == e.enabled
    ensures e.ToggleDonation? && e.enabled ==> r.donationAmount == 0.5
    ensures e.ToggleDonation? && !e.enabled ==> r.donationAmount == form.donationAmount
    ensures e.RemoveImage? ==> r.imageFile.None? && r.imagePreview.None?
    ensures !e.RemoveImage? ==> r.imageFile == form.imageFile && r.imagePreview == form.imagePreview
    // each control sets its own field ...
    ensures e.SetName? ==> r.name == e.name
    ensures e.SetSymbol? ==> r.symbol == e.symbol
    ensures e.SetDecimals? ==> r.decimals == e.decimals
    ensures e.SetTotalSupply? ==> r.totalSupply == e.totalSupply
    ensures e.SetTokenType? ==> r.tokenType == e.tokenType
    ensures e.SetDescription? ==> r.description == e.description
    ensures e.SetWebsite? ==> r.website == e.website
    ensures e.SetTelegram? ==> r.telegram == e.telegram
    ensures e.SetTwitter? ==> r.twitter == e.twitter
    ensures e.SetDiscord? ==> r.discord == e.discord
    ensures e.SetDonationAmount? ==> r.donationAmount == e.amount
    ensures e.SetLiquidityPercent? ==> r.liquidityPercent == e.percent
    ensures e.SetLiquiditySol? ==> r.liquiditySol == e.sol
    ensures e.SetSlippage? ==> r.slippage == e.slippage
    // ... and leaves every other field as it was
    ensures !e.SetName? ==> r.name == form.name
    ensures !e.SetSymbol? ==> r.symbol == form.symbol
    ensures !e.SetDecimals? ==> r.decimals == form.decimals
    ensures !e.SetTotalSupply? ==> r.totalSupply == form.totalSupply
    ensures !e.SetTokenType? ==> r.tokenType == form.tokenType
    ensures !e.SetDescription? ==> r.description == form.description
    ensures !e.SetWebsite? ==> r.website == form.website
    ensures !e.SetTelegram? ==> r.telegram == form.telegram
    ensures !e.SetTwitter? ==> r.twitter == form.twitter
    ensures !e.SetDiscord? ==> r.discord == form.discord
    ensures !e.ToggleDonation? ==> r.donationEnabled == form.donationEnabled
    ensures !e.ToggleDonation? && !e.SetDonationAmount? ==> r.donationAmount == form.donationAmount
    ensures !e.SetLiquidityPercent? ==> r.liquidityPercent == form.liquidityPercent
    ensures !e.SetLiquiditySol? ==> r.liquiditySol == form.liquiditySol
    ensures !e.SetSlippage? ==> r.slippage == form.slippage
  {
    match e
    case SetName(name) => form.(name := name)
    case SetSymbol(symbol) => form.(symbol := symbol)
    case SetDecimals(decimals) => form.(decimals := decimals)
    case SetTotalSupply(totalSupply) => form.(totalSupply := totalSupply)
    case SetTokenType(tokenType) => form.(tokenType := tokenType)
    case RemoveImage => form.(imageFile := None, imagePreview := None)
    case SetDescription(description) => form.(description := description)
    case SetWebsite(website) => form.(website := website)
    case SetTelegram(telegram) => form.(telegram := telegram)
    case SetTwitter(twitter) => form.(twitter := twitter)
    case SetDiscord(discord) => form.(discord := discord)
    case ToggleDonation(enabled) =>
      if enabled then form.(donationEnabled := true, donationAmount := 0.5)
      else form.(donationEnabled := false)
    case SetDonationAmount(amount) => form.(donationAmount := amount)
    case SetLiquidityPercent(percent) => form.(liquidityPercent := percent)
    case SetLiquiditySol(sol) => form.(liquiditySol := sol)
    case SetSlippage(slippage) => form.(slippage := slippage)
  }

  /** The SOL committed to liquidity: the liquidity amount plus the donation
      when it is enabled. */
  function SolAmount(form: Form): (sol: real)
    ensures !form.donationEnabled ==> sol == form.liquiditySol
    ensures form.donationEnabled ==> sol - form.liquiditySol == form.donationAmount
  {
    form.liquiditySol + (if form.donationEnabled then form.donationAmount else 0.0)
  }

  /** The parameters `onLaunch` hands to the launch service. */
  function ParamsOf(form: Form): (p: SolanaToken.LaunchParams)
    requires form.imageFile.Some?
    ensures p.name == form.name && p.symbol == form.symbol && p.description == form.description
    ensures p.decimals == form.decimals && p.totalSupply == form.totalSupply
    ensures p.imageFile == form.imageFile.value && p.website == form.website
    ensures p.authorities == SolanaToken.Authorities(form.freeze, form.mint, form.update)
    ensures p.liquidity.percent == form.liquidityPercent && p.liquidity.slippage == form.slippage
    ensures p.liquidity.solAmount == SolAmount(form)
    ensures p.socials == SolanaToken.Socials(form.telegram, form.twitter, form.discord)
  {
    SolanaToken.LaunchParams(
      form.name, form.symbol, form.decimals, form.totalSupply, form.imageFile.value,
      form.description, form.website,
      SolanaToken.Socials(form.telegram, form.twitter, form.discord),
      SolanaToken.Authorities(form.freeze, form.mint, form.update),
      SolanaToken.Liquidity(form.liquidityPercent, SolAmount(form), form.slippage))
  }

  /** The component's own wallet guard. */
  predicate WalletReady(wallet: SolanaToken.Wallet) {
    wallet.publicKey.Some? && wallet.canSign
  }

  /** `onLaunch` up to the call of the launch service: clears the error,
      refuses without a connected signing wallet, and otherwise starts
      loading. */
  function StartLaunch(w: Wizard, wallet: SolanaToken.Wallet): (r: Wizard)
    ensures r.step == w.step && r.form == w.form
    ensures r.loading <==> WalletReady(wallet) || w.loading
    ensures r.error.None? <==> WalletReady(wallet)
    ensures r.error.Some? ==> r.error.value == ConnectWallet
  {
    if !WalletReady(wallet) then w.(error := Some(ConnectWallet))
    else w.(loading := true, error := None)
  }

  /** The rest of `onLaunch`, once the launch service has settled: success
      resets the step and the form, failure shows the message (or a generic
      one when the message is empty); loading stops either way. */
  function SettleLaunch(w: Wizard, outcome: Result<SolanaToken.PublicKey>): (r: Wizard)
    ensures !r.loading
    ensures outcome.Ok? ==> r.step == 0 && r.form == InitialForm && r.error == w.error
    ensures outcome.Err? ==> r.step == w.step && r.form == w.form && r.error.Some?
    ensures outcome.Err? && outcome.message != "" ==> r.error == Some(outcome.message)
    ensures outcome.Err? && outcome.message == "" ==> r.error == Some(LaunchFailed)
  {
    match outcome
    case Ok(_) => Wizard(0, ResetForm, false, w.error)
    case Err(message) => w.(loading := false, error := Some(if message != "" then message else LaunchFailed))
  }

  /** What the launch service and the wallet's signing and sending together
      deliver to the component. `delivery` is the message thrown while
      signing, sending or confirming the assembled transaction, if any. */
  function LaunchOutcome(form: Form, wallet: SolanaToken.Wallet, env: SolanaToken.Environment,
                         delivery: Option<string>): (r: Result<SolanaToken.PublicKey>)
    requires form.imageFile.Some?
    ensures r.Ok? ==> r.value == env.mintKey
    ensures r.Ok? <==> SolanaToken.LaunchToken(ParamsOf(form), wallet, env).Ok? && delivery.None?
    ensures SolanaToken.LaunchToken(ParamsOf(form), wallet, env).Err? ==>
              r == Err(SolanaToken.LaunchToken(ParamsOf(form), wallet, env).message)
    ensures SolanaToken.LaunchToken(ParamsOf(form), wallet, env).Ok? && delivery.Some? ==>
              r == Err(delivery.value)
  {
    match SolanaToken.LaunchToken(ParamsOf(form), wallet, env)
    case Err(message) => Err(message)
    case Ok(launch) =>
      match delivery
      case Some(message) => Err(message)
      case None => Ok(launch.mint)
  }

  /** The tokens allocated to liquidity, as the liquidity step displays them:
      the floor of the supply's given percentage. */
  function LiquidityTokens(form: Form): (tokens: int)
    ensures tokens * 100 <= form.totalSupply * form.liquidityPercent < tokens * 100 + 100
  {
    // Dafny's division by a positive divisor rounds down, like Math.floor.
    (form.totalSupply * form.liquidityPercent) / 100
  }

  /** Within the slider's range the allocation is a share of the supply,
      all of it at 100%. */
  lemma LiquidityTokensBounded(form: Form)
    requires 0 <= form.liquidityPercent <= 100
    ensures 0 <= LiquidityTokens(form) <= form.totalSupply
    ensures form.liquidityPercent == 100 ==> LiquidityTokens(form) == form.totalSupply
  {
    var s, p, t := form.totalSupply, form.liquidityPercent, LiquidityTokens(form);
    MulMonotone(s, p, 100);
    assert t * 100 <= s * p <= s * 100;
  }

  lemma MulMonotone(a: nat, b: int, c: int)
    requires 0 <= b <= c
    ensures 0 <= a * b <= a * c
  {
  }

  /** Which controls are on screen, and enabled, in a state: Back is
      disabled on the first page and while loading; Next is shown before the
      last page and Launch in its place on the last page, disabled while
      loading; the logo chooser and the form controls sit on their own pages,
      none on the preview page. */
  function Offered(w: Wizard, ev: Event): (b: bool)
    ensures b && ev.Back? ==> w.step != 0 && !w.loading
    ensures b && ev.Launch? ==> w.step >= LastStep && !w.loading
    ensures !w.loading && (ev.Next? || ev.Launch?) ==> (b <==> (ev.Next? <==> w.step < LastStep))
    ensures b && (ev.Next? || ev.Back?) && 0 <= w.step <= LastStep ==> 0 <= Step(w, ev).step <= LastStep
    ensures b && (ev.ChooseImage? || ev.Change?) ==> w.step < LastStep
    ensures b && ev.ChooseImage? ==> w.step == 0
    ensures b && ev.Settle? ==> w.loading
  {
    match ev
    case Next => w.step < LastStep
    case Back => !(w.step == 0 || w.loading)
    case ChooseImage(_, _) => w.step == 0
    case Change(e) => w.step == EditStep(e) && EditAllowed(w.form, e)
    case Launch(_) => !(w.step < LastStep) && !w.loading
    case Settle(_) => w.loading
  }

  /** The step whose page holds the control for an edit. */
  function EditStep(e: Edit): (step: nat)
    ensures step < LastStep
    ensures e.SetName? || e.SetSymbol? || e.RemoveImage? ==> step == 0
  {
    match e
    case SetName(_) => 0
    case SetSymbol(_) => 0
    case SetDecimals(_) => 0
    case SetTotalSupply(_) => 0
    case SetTokenType(_) => 0
    case RemoveImage => 0
    case SetDescription(_) => 1
    case SetWebsite(_) => 1
    case SetTelegram(_) => 1
    case SetTwitter(_) => 1
    case SetDiscord(_) => 1
    case ToggleDonation(_) => 2
    case SetDonationAmount(_) => 2
    case SetLiquidityPercent(_) => 3
    case SetLiquiditySol(_) => 3
    case SetSlippage(_) => 3
  }

  /** One of the fifty donation choices 0.1, 0.2, ..., 5.0 SOL. */
  predicate IsDonationOption(amount: real) {
    1.0 <= amount * 10.0 <= 50.0 && (amount * 10.0).Floor as real == amount * 10.0
  }

  /** What a control lets the user enter: the text fields' length limits,
      the slider's range, the donation menu (shown only when donating) and
      the logo's delete button (shown only with a preview). */
  function EditAllowed(form: Form, e: Edit): (b: bool)
    ensures b && e.SetName? ==> |e.name| <= MaxNameLength
    ensures b && e.SetSymbol? ==> |e.symbol| <= MaxSymbolLength
    ensures b && e.RemoveImage? ==> form.imagePreview.Some?
    ensures b && e.SetDonationAmount? ==> form.donationEnabled && 0.1 <= e.amount <= 5.0
    ensures b && e.SetLiquidityPercent? ==> 0 <= e.percent <= 100
    ensures !(e.SetName? || e.SetSymbol? || e.RemoveImage? || e.SetDonationAmount? || e.SetLiquidityPercent?) ==> b
  {
    match e
    case SetName(name) => |name| <= MaxNameLength
    case SetSymbol(symbol) => |symbol| <= MaxSymbolLength
    case RemoveImage => form.imagePreview.Some?
    case SetDonationAmount(amount) => form.donationEnabled && IsDonationOption(amount)
    case SetLiquidityPercent(percent) => 0 <= percent <= 100
    case _ => true
  }

  /** The component's reaction to one event. */
  function Step(w: Wizard, ev: Event): Wizard {
    match ev
    case Next => HandleNext(w)
    case Back => HandleBack(w)
    case ChooseImage(file, objectUrl) => HandleImage(w, file, objectUrl)
    case Change(e) => w.(form := ApplyEdit(w.form, e))
    case Launch(wallet) => StartLaunch(w, wallet)
    case Settle(outcome) => SettleLaunch(w, outcome)
  }

  /** The state after a sequence of events. */
  function Run(w: Wizard, events: seq<Event>): Wizard
    decreases |events|
  {
    if events == [] then w else Run(Step(w, events[0]), events[1..])
  }

  /** Every event of the sequence is offered in the state it meets. */
  predicate Admissible(w: Wizard, events: seq<Event>)
    decreases |events|
  {
    events == [] || (Offered(w, events[0]) && Admissible(Step(w, events[0]), events[1..]))
  }

  /** What holds in every state the user can reach. */
  predicate Inv(w: Wizard) {
    && 0 <= w.step <= LastStep
    && (w.loading ==> w.step == LastStep && w.error.None?)
    && (w.step > 0 ==> BasicInfoComplete(w.form))
    && (w.form.imageFile.Some? <==> w.form.imagePreview.Some?)
    && |w.form.name| <= MaxNameLength && |w.form.symbol| <= MaxSymbolLength
    && 0 <= w.form.liquidityPercent <= 100
    // no control ever changes the authority flags
    && w.form.freeze && w.form.mint && w.form.update
  }

  /** One offered event keeps the invariant. */
  lemma StepKeepsInv(w: Wizard, ev: Event)
    requires Inv(w) && Offered(w, ev)
    ensures Inv(Step(w, ev))
  {
  }

  /** Any admissible run keeps the invariant. */
  lemma {:induction false} RunKeepsInv(w: Wizard, events: seq<Event>)
    requires Inv(w) && Admissible(w, events)
    ensures Inv(Run(w, events))
    decreases |events|
  {
    if events != [] {
      StepKeepsInv(w, events[0]);
      RunKeepsInv(Step(w, events[0]), events[1..]);
    }
  }

  /** The wizard starts in a state satisfying the invariant, and the reset
      after a launch writes back exactly the starting form. */
  lemma InitialSatisfiesInv()
    ensures Inv(Initial)
    ensures SettleLaunch(Initial, Ok(SolanaToken.PublicKey(""))).form == InitialForm
  {
  }

  /** A launch can only settle while loading, and then a successful one
      brings the component back to exactly its starting state. */
  lemma SuccessfulLaunchResets(w: Wizard, mint: SolanaToken.PublicKey)
    requires Inv(w) && Offered(w, Settle(Ok(mint)))
    ensures Step(w, Settle(Ok(mint))) == Initial
  {
  }

  /** Whatever the user does, the step stays within the five pages. */
  lemma StepInRange(events: seq<Event>)
    requires Admissible(Initial, events)
    ensures 0 <= Run(Initial, events).step < StepCount
  {
    RunKeepsInv(Initial, events);
  }

  /** When the Launch button can be pressed, the form has a logo (the
      component's non-null assertion on it is justified), and the freeze
      authority of the launched mint is always the user, since the freeze
      switch is never displayed. */
  lemma LaunchHasLogoAndFreezeAuthority(events: seq<Event>, wallet: SolanaToken.Wallet,
                                        env: SolanaToken.Environment)
    requires Admissible(Initial, events)
    requires Offered(Run(Initial, events), Launch(wallet))
    ensures BasicInfoComplete(Run(Initial, events).form)
    ensures var form := Run(Initial, events).form;
            var r := SolanaToken.LaunchToken(ParamsOf(form), wallet, env);
            r.Ok? ==> r.value.transaction.instructions[1].freezeAuthority == wallet.publicKey
  {
    RunKeepsInv(Initial, events);
  }

  /** A launch that passes the component's wallet guard never fails on the
      launch service's own wallet checks: only the logo, the two uploads and
      the delivery of the transaction decide it. */
  lemma GuardedLaunchPassesWalletChecks(form: Form, wallet: SolanaToken.Wallet,
                                        env: SolanaToken.Environment, delivery: Option<string>)
    requires form.imageFile.Some?
    requires WalletReady(wallet)
    ensures LaunchOutcome(form, wallet, env, delivery).Ok? <==>
              Ipfs.Uploadable(form.imageFile.value) && env.imageAdded.Ok? && env.metadataAdded.Ok?
              && delivery.None?
  {
  }
}
