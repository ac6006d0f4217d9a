/**
 * Email notification: `sendEmail` checks its preconditions, builds the
 * message and hands it to `sendEmailWithRetry`, which tries the transport up
 * to three times with exponential backoff. The transport is modelled by the
 * outcome of each successive attempt, and the waits by the list of delays
 * (in milliseconds) that would have been slept.
 */
module Mailer {
  import opened Js

  /** The retry bound `sendEmail` passes to `sendEmailWithRetry`. */
  const MaxRetries := 3

  /** What one call of `transporter.sendMail` does. */
  datatype Outcome = Sent(messageId: string) | Failed(error: string)

  /**
   * How `sendEmailWithRetry` ends: it returns the message id, rethrows the
   * last transport error, or (when the loop body never runs) falls off the
   * end and returns `undefined`.
   */
  datatype RetryResult = Delivered(messageId: string) | Rethrown(error: string) | Fallthrough

  /** The result, the number of transport calls made, and the waits slept between them. */
  datatype RetryTrace = RetryTrace(result: RetryResult, attempts: nat, waits: seq<nat>)

  function Pow2(n: nat): nat
  {
    if n == 0 then 1 else 2 * Pow2(n - 1)
  }

  /** The wait after failed attempt number `attempt` (counted from 1): `2^attempt * 1000` ms. */
  function Backoff(attempt: nat): nat
  {
    Pow2(attempt) * 1000
  }

  /** The waits slept after the first `n` failed attempts. */
  function Backoffs(n: nat): (r: seq<nat>)
    ensures |r| == n
    ensures forall i :: 0 <= i < n ==> r[i] == Backoff(i + 1)
  {
    if n == 0 then [] else Backoffs(n - 1) + [Backoff(n)]
  }

  /** The first attempt index in [from, limit) whose transport call succeeds. */
  function FirstSent(script: seq<Outcome>, from: nat, limit: int): (r: Option<nat>)
    requires limit <= |script|
    ensures r.Some? ==> from <= r.value < limit && script[r.value].Sent?
    ensures r.Some? ==> forall k :: from <= k < r.value ==> script[k].Failed?
    ensures r.None? ==> forall k :: from <= k < limit ==> script[k].Failed?
    decreases limit - from
  {
    if limit <= from then None
    else if script[from].Sent? then Some(from)
    else FirstSent(script, from + 1, limit)
  }

  /**
   * What `sendEmailWithRetry(transporter, options, maxRetries)` does when
   * attempt k + 1 has outcome `script[k]`: it stops at the first success,
   * and otherwise uses up every attempt and rethrows the last error.
   */
  function RetrySpec(script: seq<Outcome>, maxRetries: int): (r: RetryTrace)
    requires maxRetries <= |script|
    ensures r.result.Fallthrough? <==> maxRetries < 1
    ensures r.result.Rethrown? <==> 1 <= maxRetries && forall k :: 0 <= k < maxRetries ==> script[k].Failed?
    ensures r.result.Rethrown? ==> r.attempts == maxRetries && r.result.error == script[maxRetries - 1].error
  {
    match FirstSent(script, 0, maxRetries)
    case Some(k) => RetryTrace(Delivered(script[k].messageId), k + 1, Backoffs(k))
    case None =>
      if maxRetries < 1 then RetryTrace(Fallthrough, 0, [])
      else RetryTrace(Rethrown(script[maxRetries - 1].error), maxRetries, Backoffs(maxRetries - 1))
  }

  /** The retry loop of `sendEmailWithRetry`. */
  method SendWithRetry(script: seq<Outcome>, maxRetries: int) returns (t: RetryTrace)
    requires maxRetries <= |script|
    ensures t == RetrySpec(script, maxRetries)
  {
    var waits: seq<nat> := [];
    var attempt := 1;
    while attempt <= maxRetries
      invariant 1 <= attempt
      invariant attempt <= maxRetries || (maxRetries < 1 && attempt == 1)
      invariant forall k :: 0 <= k < attempt - 1 ==> script[k].Failed?
      invariant waits == Backoffs(attempt - 1)
      decreases maxRetries - attempt
    {
      var outcome := script[attempt - 1];
      if outcome.Sent? {
        assert FirstSent(script, 0, maxRetries) == Some(attempt - 1);
        return RetryTrace(Delivered(outcome.messageId), attempt, waits);
      }
      if attempt < maxRetries {
        waits := waits + [Backoff(attempt)];
      } else {
        assert FirstSent(script, 0, maxRetries) == None;
        return RetryTrace(Rethrown(outcome.error), attempt, waits);
      }
      attempt := attempt + 1;
    }
    return RetryTrace(Fallthrough, 0, []);
  }

  /** At most `maxRetries` transport calls; every call but the last failed; one wait after each failed call but the last, growing as 2^k seconds. */
  lemma RetryBounds(script: seq<Outcome>, maxRetries: int)
    requires maxRetries <= |script|
    ensures var t := RetrySpec(script, maxRetries);
      && (maxRetries < 1 ==> t.attempts == 0 && t.result == Fallthrough)
      && (maxRetries >= 1 ==> 1 <= t.attempts <= maxRetries && |t.waits| == t.attempts - 1)
      && (forall k :: 0 <= k < t.attempts - 1 ==> script[k].Failed?)
      && (forall i :: 0 <= i < |t.waits| ==> t.waits[i] == Pow2(i + 1) * 1000)
  {
  }

  /** The loop delivers iff some allowed attempt succeeds, and then it reports the first success and stops there. */
  lemma RetryDeliveredIff(script: seq<Outcome>, maxRetries: int)
    requires maxRetries <= |script|
    ensures var t := RetrySpec(script, maxRetries);
      && (t.result.Delivered? <==> exists k :: 0 <= k < maxRetries && script[k].Sent?)
      && (t.result.Delivered? ==> script[t.attempts - 1] == Sent(t.result.messageId))
  {
    var t := RetrySpec(script, maxRetries);
    if exists k :: 0 <= k < maxRetries && script[k].Sent? {
      var k :| 0 <= k < maxRetries && script[k].Sent?;
      assert FirstSent(script, 0, maxRetries).Some?;
    }
  }

  /** When every attempt fails, all of them are used and the last error is rethrown. */
  lemma RetryExhausted(script: seq<Outcome>, maxRetries: int)
    requires 1 <= maxRetries <= |script|
    requires forall k :: 0 <= k < maxRetries ==> script[k].Failed?
    ensures RetrySpec(script, maxRetries)
         == RetryTrace(Rethrown(script[maxRetries - 1].error), maxRetries, Backoffs(maxRetries - 1))
  {
    assert FirstSent(script, 0, maxRetries).None?;
  }

  /** With three attempts that all fail: three transport calls, a 2 s wait and then a 4 s wait. */
  lemma ThreeFailuresSchedule(script: seq<Outcome>)
    requires |script| >= MaxRetries
    requires forall k :: 0 <= k < MaxRetries ==> script[k].Failed?
    ensures RetrySpec(script, MaxRetries) == RetryTrace(Rethrown(script[2].error), 3, [2000, 4000])
  {
    RetryExhausted(script, MaxRetries);
    assert Backoffs(2) == [2000, 4000] by {
      assert Pow2(1) == 2 && Pow2(2) == 4;
    }
  }

  /** The environment variables `sendEmail` reads. */
  datatype MailEnv = MailEnv(emailUser: Option<string>, emailPass: Option<string>, adminEmail: Option<string>)

  /** The argument of `sendEmail`. */
  datatype MailRequest = MailRequest(to: Option<string>, subject: Option<string>, text: Option<string>, html: Option<string>)

  /** The options handed to the transport. */
  datatype MailOptions = MailOptions(from: string, to: string, subject: Option<string>, text: Option<string>, html: string, replyTo: string)

  /** What one call of `sendEmail` did: refused before any attempt, or dispatched with a retry trace. */
  datatype SendReport = NotConfigured | NoRecipient | Dispatched(options: MailOptions, trace: RetryTrace)

  /** Markup placed around the text when no HTML body is given (the branding itself is presentation). */
  const TemplateHead := "<div><h1>CivicFix</h1><p>"
  const TemplateTail := "</p></div>"

  function BrandedTemplate(text: Option<string>): string
  {
    TemplateHead + Show(text) + TemplateTail
  }

  /** Both credentials are set. */
  predicate Configured(env: MailEnv)
  {
    Truthy(env.emailUser) && Truthy(env.emailPass)
  }

  /** The options `sendEmail` builds once its guards have passed. */
  function BuildOptions(env: MailEnv, req: MailRequest): (r: MailOptions)
    requires Configured(env) && Truthy(req.to)
    ensures r.to == Trim(req.to.value)
    ensures r.subject == req.subject && r.text == req.text
    ensures r.html != "" && r.replyTo != ""
    ensures Truthy(env.adminEmail) ==> r.replyTo == env.adminEmail.value
    ensures !Truthy(env.adminEmail) ==> r.replyTo == "admin@civicfix.com"
    ensures |r.from| > |env.emailUser.value| && r.from[|r.from| - |env.emailUser.value| - 1..|r.from| - 1] == env.emailUser.value
  {
    MailOptions(
      "\"CivicFix\" <" + env.emailUser.value + ">",
      Trim(req.to.value),
      req.subject,
      req.text,
      if Truthy(req.html) then req.html.value else BrandedTemplate(req.text),
      OrDefault(env.adminEmail, "admin@civicfix.com"))
  }

  /** The recipient is the trimmed address, and the body is the given HTML or else a template that embeds the text. */
  lemma OptionsShape(env: MailEnv, req: MailRequest)
    requires Configured(env) && Truthy(req.to)
    ensures var o := BuildOptions(env, req);
      && o.to == Trim(req.to.value)
      && Trim(o.to) == o.to
      && (Truthy(req.html) ==> o.html == req.html.value)
      && (!Truthy(req.html) ==> o.html[|TemplateHead|..|o.html| - |TemplateTail|] == Show(req.text))
  {
    TrimIdempotent(req.to.value);
  }

  /** Number of transport calls a `sendEmail` call made. */
  function Attempts(report: SendReport): nat
  {
    if report.Dispatched? then report.trace.attempts else 0
  }

  /** `sendEmail`: the guards, then the retry loop; any error ends in `false`, never in an exception. */
  method SendEmail(env: MailEnv, req: MailRequest, script: seq<Outcome>) returns (ok: bool, report: SendReport)
    requires |script| >= MaxRetries
    ensures !Configured(env) ==> report == NotConfigured
    ensures Configured(env) && !Truthy(req.to) ==> report == NoRecipient
    ensures Configured(env) && Truthy(req.to)
      ==> report == Dispatched(BuildOptions(env, req), RetrySpec(script, MaxRetries))
    ensures !Configured(env) || !Truthy(req.to) ==> Attempts(report) == 0
    ensures ok <==> report.Dispatched? && report.trace.result.Delivered?
    ensures ok <==> Configured(env) && Truthy(req.to) && exists k :: 0 <= k < MaxRetries && script[k].Sent?
  {
    if !Truthy(env.emailUser) || !Truthy(env.emailPass) {
      return false, NotConfigured;
    }
    if !Truthy(req.to) {
      return false, NoRecipient;
    }
    var options := BuildOptions(env, req);
    var trace := SendWithRetry(script, MaxRetries);
    RetryDeliveredIff(script, MaxRetries);
    ok := trace.result.Delivered?;
    report := Dispatched(options, trace);
  }
}
