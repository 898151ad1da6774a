/**
 * The method-channel handler of MainActivity.kt: validation of a direct SMS
 * request, the choice of SmsManager, the single or multipart send, the
 * switch of the background trigger service, and the lookup of that service
 * among the running ones.
 *
 * Telephony and the activity manager are represented by the values they
 * answer (`Platform`, the list of running class names); the handler's
 * result is an `Effect` on the platform plus the `Reply` sent to Flutter.
 */
module MainActivity {
  import opened Wrappers
  import Decimal

  /** `SubscriptionManager.INVALID_SUBSCRIPTION_ID` */
  const InvalidSubscriptionId: int := -1
  /** `Build.VERSION_CODES.S` */
  const SdkS: int := 31
  const TriggerServiceClassName: string := "com.example.night_walkers_app.VolumeTriggerService"

  /** What the platform answers the handler. */
  datatype Platform = Platform(
    sdkInt: int,
    defaultSmsSubscriptionId: int,
    systemSmsManagerExists: bool,
    divideMessage: string -> seq<string>)

  /** The arguments a method call carries; a missing one is `None`. */
  datatype Arguments = Arguments(
    to: Option<string>,
    message: Option<string>,
    subscriptionId: Option<int>,
    enabled: Option<bool>)

  datatype SmsManager = ForSubscription(id: int) | FromSystemService | Default

  datatype Effect =
    | NoEffect
    | SendText(to: string, body: string)
    | SendMultipartText(to: string, parts: seq<string>)
    | StartTriggerService
    | StopTriggerService

  datatype Reply =
    | SmsSent(managerSource: string)
    | Flag(value: bool)
    | Diagnostics(systemSmsManagerAvailable: bool)
    | Error(code: string, message: string)
    | NotImplemented

  datatype Handled = Handled(effect: Effect, reply: Reply)

  // ---------------------------------------------------------------------
  // Argument checks

  /** Kotlin's `Char.isWhitespace`: Java whitespace or a Unicode space separator. */
  predicate IsWhitespace(c: char) {
    var n := c as int;
    || 0x09 <= n <= 0x0D
    || 0x1C <= n <= 0x20
    || n == 0xA0 || n == 0x1680
    || 0x2000 <= n <= 0x200A
    || n == 0x2028 || n == 0x2029 || n == 0x202F || n == 0x205F || n == 0x3000
  }

  predicate IsBlank(s: string) {
    forall i :: 0 <= i < |s| ==> IsWhitespace(s[i])
  }

  predicate IsNullOrBlank(s: Option<string>) {
    s.None? || IsBlank(s.value)
  }

  predicate IsNullOrEmpty(s: Option<string>) {
    s.None? || s.value == ""
  }

  // ---------------------------------------------------------------------
  // SmsManager selection

  /** The label reported as `managerSource`. */
  function SourceName(m: SmsManager): string {
    match m
    case ForSubscription(id) => "subscription:" + Decimal.IntText(id)
    case FromSystemService => "systemService"
    case Default => "getDefault"
  }

  /** The reported label identifies the manager that was used. */
  lemma SourceNameInjective(a: SmsManager, b: SmsManager)
    ensures SourceName(a) == SourceName(b) ==> a == b
  {
    if SourceName(a) == SourceName(b) && a.ForSubscription? && b.ForSubscription? {
      var prefix := "subscription:";
      assert SourceName(a)[|prefix|..] == Decimal.IntText(a.id);
      assert SourceName(b)[|prefix|..] == Decimal.IntText(b.id);
      Decimal.IntTextInjective(a.id, b.id);
    }
  }

  /** The subscription a send targets. */
  function TargetSubscription(subId: Option<int>, platform: Platform): (r: int)
    ensures subId.Some? && subId.value != InvalidSubscriptionId ==> r == subId.value
    ensures subId.None? || subId.value == InvalidSubscriptionId ==> r == platform.defaultSmsSubscriptionId
  {
    if subId.Some? && subId.value != InvalidSubscriptionId then subId.value
    else platform.defaultSmsSubscriptionId
  }

  datatype Selection = Selection(manager: SmsManager, source: string)

  /** `getSmsManager`: some manager is always chosen, and the label names it. */
  function GetSmsManager(subId: Option<int>, platform: Platform): (r: Selection)
    ensures r.source == SourceName(r.manager)
    ensures r.manager.ForSubscription? ==> r.manager.id != InvalidSubscriptionId
    ensures TargetSubscription(subId, platform) != InvalidSubscriptionId ==>
      r.manager == ForSubscription(TargetSubscription(subId, platform))
    ensures TargetSubscription(subId, platform) == InvalidSubscriptionId ==>
      (r.manager == FromSystemService <==>
        platform.sdkInt >= SdkS && platform.systemSmsManagerExists)
    ensures (TargetSubscription(subId, platform) == InvalidSubscriptionId
             && !(platform.sdkInt >= SdkS && platform.systemSmsManagerExists))
      ==> r.manager == Default
  {
    var target := TargetSubscription(subId, platform);
    if target != InvalidSubscriptionId then
      Selection(ForSubscription(target), "subscription:" + Decimal.IntText(target))
    else if platform.sdkInt >= SdkS && platform.systemSmsManagerExists then
      Selection(FromSystemService, "systemService")
    else
      Selection(Default, "getDefault")
  }

  /** A valid explicit subscription wins over everything the platform says. */
  lemma ExplicitSubscriptionWins(id: int, p: Platform, q: Platform)
    requires id != InvalidSubscriptionId
    ensures GetSmsManager(Some(id), p) == GetSmsManager(Some(id), q)
    ensures GetSmsManager(Some(id), p).source == "subscription:" + Decimal.IntText(id)
  {
  }

  // ---------------------------------------------------------------------
  // Direct SMS

  const InvalidArgs: Reply := Error("invalid_args", "to and message are required")

  /** `sendDirectSms`: reject bad arguments, else send in one or several parts. */
  function SendDirectSms(args: Arguments, platform: Platform): (r: Handled)
    ensures r.reply == InvalidArgs <==> IsNullOrBlank(args.to) || IsNullOrEmpty(args.message)
    ensures r.reply == InvalidArgs ==> r.effect == NoEffect
    ensures r.reply != InvalidArgs ==>
      var parts := platform.divideMessage(args.message.value);
      && r.reply == SmsSent(GetSmsManager(args.subscriptionId, platform).source)
      && (|parts| > 1 ==> r.effect == SendMultipartText(args.to.value, parts))
      && (|parts| <= 1 ==> r.effect == SendText(args.to.value, args.message.value))
  {
    if IsNullOrBlank(args.to) || IsNullOrEmpty(args.message) then Handled(NoEffect, InvalidArgs)
    else
      var selection := GetSmsManager(args.subscriptionId, platform);
      var parts := platform.divideMessage(args.message.value);
      var effect := if |parts| > 1 then SendMultipartText(args.to.value, parts)
                    else SendText(args.to.value, args.message.value);
      Handled(effect, SmsSent(selection.source))
  }

  /** A message made only of whitespace is still sent; a blank recipient is not. */
  lemma WhitespaceMessageIsSent(to: string, message: string, subId: Option<int>, platform: Platform)
    requires !IsBlank(to) && message != "" && IsBlank(message)
    ensures SendDirectSms(Arguments(Some(to), Some(message), subId, None), platform).effect != NoEffect
    ensures SendDirectSms(Arguments(Some(message), Some(to), subId, None), platform) == Handled(NoEffect, InvalidArgs)
  {
  }

  // ---------------------------------------------------------------------
  // Background service

  predicate ServiceListed(running: seq<string>, className: string) {
    exists i :: 0 <= i < |running| && running[i] == className
  }

  /** `isServiceRunning` over the class names of the running services. */
  method IsServiceRunning(running: seq<string>, className: string) returns (found: bool)
    ensures found <==> ServiceListed(running, className)
  {
    for i := 0 to |running|
      invariant forall j :: 0 <= j < i ==> running[j] != className
    {
      if running[i] == className {
        return true;
      }
    }
    return false;
  }

  const SendDirectSmsMethod: string := "sendDirectSms"
  const DiagnosticsMethod: string := "getSmsManagerDiagnostics"
  const SetTriggerMethod: string := "setBackgroundVolumeTriggerEnabled"
  const TriggerRunningMethod: string := "isBackgroundVolumeTriggerRunning"

  /** The method-call handler. */
  function HandleCall(name: string, args: Arguments, platform: Platform, running: seq<string>): (r: Handled)
    ensures name == SendDirectSmsMethod ==> r == SendDirectSms(args, platform)
    ensures name == DiagnosticsMethod ==>
      r == Handled(NoEffect, Diagnostics(platform.sdkInt < SdkS || platform.systemSmsManagerExists))
    ensures name == SetTriggerMethod ==>
      && r.reply == Flag(true)
      && (r.effect == StartTriggerService <==> args.enabled == Some(true))
      && (r.effect == StopTriggerService <==> args.enabled != Some(true))
    ensures name == TriggerRunningMethod ==>
      r == Handled(NoEffect, Flag(ServiceListed(running, TriggerServiceClassName)))
    ensures name !in [SendDirectSmsMethod, DiagnosticsMethod, SetTriggerMethod, TriggerRunningMethod] ==>
      r == Handled(NoEffect, NotImplemented)
  {
    if name == SendDirectSmsMethod then SendDirectSms(args, platform)
    else if name == DiagnosticsMethod then
      Handled(NoEffect, Diagnostics(platform.sdkInt < SdkS || platform.systemSmsManagerExists))
    else if name == SetTriggerMethod then
      var enabled := if args.enabled.Some? then args.enabled.value else false;
      Handled(if enabled then StartTriggerService else StopTriggerService, Flag(true))
    else if name == TriggerRunningMethod then
      Handled(NoEffect, Flag(ServiceListed(running, TriggerServiceClassName)))
    else Handled(NoEffect, NotImplemented)
  }

  /** A missing `enabled` argument stops the service. */
  lemma MissingEnabledStopsService(args: Arguments, platform: Platform, running: seq<string>)
    requires args.enabled.None?
    ensures HandleCall(SetTriggerMethod, args, platform, running).effect == StopTriggerService
  {
  }
}
