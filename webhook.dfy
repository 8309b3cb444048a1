/**
 * The webhook notifier: whether a certificate event is reported at all, and
 * which payload is posted to the configured URL. The destination service is
 * recognised by ordinal substring tests on the URL (Slack, Office 365 /
 * Teams connectors, Discord, anything else). The HTTP POST itself is reduced
 * to the request that would be made and whether its status is only logged.
 */
module Webhook {
  import opened Wrappers
  import opened Strings

  /** The two settings the notifier reads; a missing setting is `None` (C# null). */
  datatype AcmebotOptions = AcmebotOptions(webhook: Option<string>, disableSuccessWebhook: Option<string>)

  /** A `DateTimeOffset`, kept as an opaque value: its text rendering is culture-dependent. */
  datatype Timestamp = Timestamp(utcTicks: int, offsetMinutes: int)

  /** The anonymous objects the notifier serialises, one variant per shape, with their field values. */
  datatype Payload =
    | SlackCompleted(username: string, text: string, color: string,
                     certificateName: string, expirationDate: Option<Timestamp>, dnsNames: string)
    | OfficeCompleted(title: string, certificateName: string, expirationDate: Option<Timestamp>,
                      dnsNames: string, themeColor: string)
    | DiscordCompleted(username: string, content: string, embedColor: int,
                       certificateName: string, expirationDate: Option<Timestamp>, dnsNames: string)
    | GenericCompleted(certificateName: string, dnsNameList: seq<string>)
    | SlackFailed(username: string, title: string, text: string, color: string)
    | OfficeFailed(title: string, text: string, themeColor: string)
    | DiscordFailed(username: string, content: string, name: string, text: string, embedColor: int)
    | GenericFailed(functionName: string, reason: string)

  /** The destination services the notifier distinguishes. */
  datatype Kind = Slack | Office | Discord | Generic

  /** One POST to the webhook URL and whether a non-success status got logged as a warning. */
  datatype Post = Post(url: string, payload: Payload, statusCode: int, warned: bool)

  const SlackMarker := "hooks.slack.com"
  const OfficeMarker := ".office.com"
  const DiscordMarker := "discordapp.com"

  /** `string.IsNullOrEmpty`. */
  predicate IsNullOrEmpty(s: Option<string>)
  {
    s.None? || s.value == ""
  }

  /** `HttpResponseMessage.IsSuccessStatusCode`. */
  predicate IsSuccessStatusCode(statusCode: int)
  {
    200 <= statusCode <= 299
  }

  /** A completion is not reported without a URL, nor when success notifications are switched off. */
  predicate CompletedSuppressed(options: AcmebotOptions)
  {
    IsNullOrEmpty(options.webhook) || !IsNullOrEmpty(options.disableSuccessWebhook)
  }

  /** A failure is not reported only without a URL. */
  predicate FailedSuppressed(options: AcmebotOptions)
  {
    IsNullOrEmpty(options.webhook)
  }

  /** The service a URL designates, the first marker found deciding, in the order Slack, Office, Discord. */
  function Destination(url: string): Kind
  {
    if Contains(url, SlackMarker) then Slack
    else if Contains(url, OfficeMarker) then Office
    else if Contains(url, DiscordMarker) then Discord
    else Generic
  }

  /** The service a payload is shaped for. */
  function Shape(p: Payload): Kind
  {
    match p
    case SlackCompleted(_, _, _, _, _, _) => Slack
    case SlackFailed(_, _, _, _) => Slack
    case OfficeCompleted(_, _, _, _, _) => Office
    case OfficeFailed(_, _, _) => Office
    case DiscordCompleted(_, _, _, _, _, _) => Discord
    case DiscordFailed(_, _, _, _, _) => Discord
    case GenericCompleted(_, _) => Generic
    case GenericFailed(_, _) => Generic
  }

  /* ---------- the payloads, per destination ---------- */

  function SlackCompletedPayload(certificateName: string, expirationDate: Option<Timestamp>, dnsNames: seq<string>): Payload
  {
    SlackCompleted("Acmebot", "A new certificate has been issued.", "good", certificateName, expirationDate, Join("\n", dnsNames))
  }

  function OfficeCompletedPayload(certificateName: string, expirationDate: Option<Timestamp>, dnsNames: seq<string>): Payload
  {
    OfficeCompleted("Acmebot", certificateName, expirationDate, Join(", ", dnsNames), "2EB886")
  }

  function DiscordCompletedPayload(certificateName: string, expirationDate: Option<Timestamp>, dnsNames: seq<string>): Payload
  {
    DiscordCompleted("Acmebot", "A new certificate has been issued.", 2644236, certificateName, expirationDate, Join("\n", dnsNames))
  }

  function SlackFailedPayload(functionName: string, reason: string): Payload
  {
    SlackFailed("Acmebot", functionName, reason, "danger")
  }

  function OfficeFailedPayload(functionName: string, reason: string): Payload
  {
    OfficeFailed("Acmebot", "**" + functionName + "**\n\n**Reason**\n\n" + reason, "A30200")
  }

  function DiscordFailedPayload(functionName: string, reason: string): Payload
  {
    DiscordFailed("Acmebot", "Certificate creation failed", functionName, reason, 10682880)
  }

  /** The completion payload for a URL, chosen by its destination. */
  function CompletedPayload(url: string, certificateName: string, expirationDate: Option<Timestamp>, dnsNames: seq<string>): Payload
  {
    match Destination(url)
    case Slack => SlackCompletedPayload(certificateName, expirationDate, dnsNames)
    case Office => OfficeCompletedPayload(certificateName, expirationDate, dnsNames)
    case Discord => DiscordCompletedPayload(certificateName, expirationDate, dnsNames)
    case Generic => GenericCompleted(certificateName, dnsNames)
  }

  /**
   * The failure payload the notifier actually posts: the Discord test is a
   * separate `if` whose `else` replaces whatever the Slack or Office branch
   * built, so only the Discord marker matters.
   */
  function FailedPayload(url: string, functionName: string, reason: string): Payload
  {
    if Contains(url, DiscordMarker) then DiscordFailedPayload(functionName, reason)
    else GenericFailed(functionName, reason)
  }

  /** The failure payload a first-match chain, like the one for completions, would post. */
  function IntendedFailedPayload(url: string, functionName: string, reason: string): Payload
  {
    match Destination(url)
    case Slack => SlackFailedPayload(functionName, reason)
    case Office => OfficeFailedPayload(functionName, reason)
    case Discord => DiscordFailedPayload(functionName, reason)
    case Generic => GenericFailed(functionName, reason)
  }

  /* ---------- the notifier ---------- */

  /**
   * Posts `model` to the URL; the response status (an input here) is only
   * logged when it is not a success, never raised.
   */
  method SendEvent(url: string, model: Payload, statusCode: int) returns (post: Post)
    ensures post.url == url && post.payload == model && post.statusCode == statusCode
    ensures post.warned <==> !IsSuccessStatusCode(statusCode)
  {
    var warned := false;
    if !IsSuccessStatusCode(statusCode) {
      warned := true;
    }
    return Post(url, model, statusCode, warned);
  }

  /** Reports an issued certificate: nothing when suppressed, otherwise one POST shaped for the destination. */
  method SendCompletedEvent(options: AcmebotOptions, certificateName: string, expirationDate: Option<Timestamp>,
                            dnsNames: seq<string>, statusCode: int)
    returns (post: Option<Post>)
    ensures post.None? <==> CompletedSuppressed(options)
    ensures post.Some? ==>
      && post.value.url == options.webhook.value
      && post.value.payload == CompletedPayload(options.webhook.value, certificateName, expirationDate, dnsNames)
      && Shape(post.value.payload) == Destination(options.webhook.value)
      && (post.value.warned <==> !IsSuccessStatusCode(statusCode))
  {
    if IsNullOrEmpty(options.webhook) || !IsNullOrEmpty(options.disableSuccessWebhook) {
      return None;
    }
    var url := options.webhook.value;
    var model: Payload;
    if Contains(url, SlackMarker) {
      model := SlackCompletedPayload(certificateName, expirationDate, dnsNames);
    } else if Contains(url, OfficeMarker) {
      model := OfficeCompletedPayload(certificateName, expirationDate, dnsNames);
    } else if Contains(url, DiscordMarker) {
      model := DiscordCompletedPayload(certificateName, expirationDate, dnsNames);
    } else {
      model := GenericCompleted(certificateName, dnsNames);
    }
    var sent := SendEvent(url, model, statusCode);
    return Some(sent);
  }

  /**
   * Reports a failed orchestration: nothing without a URL, otherwise one POST.
   * The assignments follow the source, including the second, independent
   * `if`/`else` that always runs after the Slack/Office chain.
   */
  method SendFailedEvent(options: AcmebotOptions, functionName: string, reason: string, statusCode: int)
    returns (post: Option<Post>)
    ensures post.None? <==> FailedSuppressed(options)
    ensures post.Some? ==>
      && post.value.url == options.webhook.value
      && post.value.payload == FailedPayload(options.webhook.value, functionName, reason)
      && (Shape(post.value.payload) == Discord <==> Contains(options.webhook.value, DiscordMarker))
      && (Shape(post.value.payload) == Discord || post.value.payload == GenericFailed(functionName, reason))
      && (post.value.warned <==> !IsSuccessStatusCode(statusCode))
  {
    if IsNullOrEmpty(options.webhook) {
      return None;
    }
    var url := options.webhook.value;
    var model: Payload;
    if Contains(url, SlackMarker) {
      model := SlackFailedPayload(functionName, reason);
    } else if Contains(url, OfficeMarker) {
      model := OfficeFailedPayload(functionName, reason);
    }
    if Contains(url, DiscordMarker) {
      model := DiscordFailedPayload(functionName, reason);
    } else {
      model := GenericFailed(functionName, reason);
    }
    var sent := SendEvent(url, model, statusCode);
    return Some(sent);
  }

  /* ---------- properties ---------- */

  /** The success switch only silences completions: whenever a completion is reported, so is a failure, and not conversely. */
  lemma DisableSuccessWebhookOnlySilencesCompletions(options: AcmebotOptions)
    ensures !CompletedSuppressed(options) ==> !FailedSuppressed(options)
    ensures !FailedSuppressed(options) && !IsNullOrEmpty(options.disableSuccessWebhook) ==> CompletedSuppressed(options)
  {
  }

  /** Completions are shaped first-match-wins: a Slack marker beats every other, an Office marker beats Discord's. */
  lemma CompletedShapeIsFirstMatch(url: string, certificateName: string, expirationDate: Option<Timestamp>, dnsNames: seq<string>)
    ensures var shape := Shape(CompletedPayload(url, certificateName, expirationDate, dnsNames));
      && (shape == Slack <==> Contains(url, SlackMarker))
      && (shape == Office <==> !Contains(url, SlackMarker) && Contains(url, OfficeMarker))
      && (shape == Discord <==> !Contains(url, SlackMarker) && !Contains(url, OfficeMarker) && Contains(url, DiscordMarker))
      && (shape == Generic <==> !Contains(url, SlackMarker) && !Contains(url, OfficeMarker) && !Contains(url, DiscordMarker))
  {
  }

  /** The generic completion payload carries the certificate name and the DNS names, and no expiration date. */
  lemma GenericCompletedCarriesNamesOnly(url: string, certificateName: string, expirationDate: Option<Timestamp>, dnsNames: seq<string>)
    requires Destination(url) == Generic
    ensures CompletedPayload(url, certificateName, expirationDate, dnsNames) == GenericCompleted(certificateName, dnsNames)
    ensures forall other :: CompletedPayload(url, certificateName, other, dnsNames) == CompletedPayload(url, certificateName, expirationDate, dnsNames)
  {
  }

  /** Every DNS name can be found in the joined names of a Slack, Office or Discord completion payload. */
  lemma CompletedPayloadListsEveryName(url: string, certificateName: string, expirationDate: Option<Timestamp>, dnsNames: seq<string>, k: nat)
    requires k < |dnsNames|
    ensures var p := CompletedPayload(url, certificateName, expirationDate, dnsNames);
      (p.SlackCompleted? || p.OfficeCompleted? || p.DiscordCompleted?) ==> Contains(p.dnsNames, dnsNames[k])
  {
    JoinContainsEach("\n", dnsNames, k);
    JoinContainsEach(", ", dnsNames, k);
  }

  /** Slack and Discord list the DNS names one per line, Office separates them with a comma and a space. */
  lemma CompletedJoinSeparators(certificateName: string, expirationDate: Option<Timestamp>, first: string, second: string)
    ensures SlackCompletedPayload(certificateName, expirationDate, [first, second]).dnsNames == first + "\n" + second
    ensures OfficeCompletedPayload(certificateName, expirationDate, [first, second]).dnsNames == first + ", " + second
    ensures DiscordCompletedPayload(certificateName, expirationDate, [first, second]).dnsNames == first + "\n" + second
  {
    assert [first, second][1..] == [second];
    assert Join("\n", [second]) == second && Join(", ", [second]) == second;
  }

  /** Only the Discord marker decides the failure payload: Slack and Office payloads are never posted. */
  lemma FailedIgnoresSlackAndOffice(url: string, functionName: string, reason: string)
    ensures var shape := Shape(FailedPayload(url, functionName, reason));
      && (shape == Discord <==> Contains(url, DiscordMarker))
      && (shape == Generic <==> !Contains(url, DiscordMarker))
  {
  }

  /** A string without the first character of a non-empty marker does not contain the marker. */
  lemma NotContainsWithoutFirstChar(s: string, sub: string)
    requires |sub| > 0 && sub[0] !in s
    ensures !Contains(s, sub)
  {
    forall i | 0 <= i <= |s| ensures !StartsWith(s[i..], sub) {
      if i < |s| {
        assert s[i..][0] == s[i] && s[i] in s;
      }
    }
  }

  /**
   * A Slack webhook URL: the failure is posted as the generic object instead
   * of the Slack attachment the Slack branch built.
   */
  lemma SlackFailureIsPostedGeneric()
    ensures var url := "https://hooks.slack.com/x";
      && Destination(url) == Slack
      && FailedPayload(url, "RenewCertificates", "timeout") == GenericFailed("RenewCertificates", "timeout")
      && IntendedFailedPayload(url, "RenewCertificates", "timeout") == SlackFailedPayload("RenewCertificates", "timeout")
  {
    var url := "https://hooks.slack.com/x";
    assert url[8..][..|SlackMarker|] == SlackMarker;
    assert StartsWith(url[8..], SlackMarker);
    NotContainsWithoutFirstChar(url, DiscordMarker);
  }

  /** The corrected failure payload is shaped for the same destination as the completion payload. */
  lemma IntendedFailedMatchesCompletedShape(url: string, functionName: string, reason: string,
                                            certificateName: string, expirationDate: Option<Timestamp>, dnsNames: seq<string>)
    ensures Shape(IntendedFailedPayload(url, functionName, reason)) == Shape(CompletedPayload(url, certificateName, expirationDate, dnsNames))
    ensures Shape(IntendedFailedPayload(url, functionName, reason)) == Destination(url)
  {
  }

  /** The source agrees with the corrected chain exactly on URLs that designate neither Slack nor Office. */
  lemma FailedAgreesWithIntendedUnlessSlackOrOffice(url: string, functionName: string, reason: string)
    ensures FailedPayload(url, functionName, reason) == IntendedFailedPayload(url, functionName, reason)
      <==> Destination(url) == Discord || Destination(url) == Generic
  {
  }
}
