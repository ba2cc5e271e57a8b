/**
 * The license manager: the stored license record, the periodic check
 * `lv_is_plugin_activated`, the throttled usage report, and the License
 * page's explicit activate and deactivate handlers.
 *
 * The clock, `home_url()`, `strtotime` and the license server's replies are
 * parameters. A reply is the outcome of one `wp_remote_post`: a transport
 * error, or an HTTP status with its raw body and the body as `json_decode`
 * sees it.
 */
module License {
  import opened Php

  /** Seconds in a day: the re-check and usage-report period. */
  const Day := 86400

  datatype Status = Active | Inactive

  /** The `lv_license_alert` message, one constructor per text the plugin sets. */
  datatype Alert =
    | LicenseExpired                      // "Your license has expired. ..."
    | Unreachable(reason: string)         // "Unable to verify license: <reason>"
    | HttpFailure(code: int, body: string) // "Server returned HTTP <code>: <body>"
    | InvalidResponse(body: string)       // "Invalid server response: <body or 'Empty'>"
    | ExpiredOrInvalid                    // "License key is expired or invalid."
    | InvalidOrUsed                       // "License key is invalid or already used."
    | ServerMessage(text: string)         // the server's own `message`

  /** A decoded body: not an array, or an object whose members are strings. */
  datatype Json = NotAnArray | Object(members: map<string, string>)

  datatype Reply = NetError(reason: string) | Http(code: int, body: string, json: Json)

  /**
   * The stored license record: options `lv_license_key`, `lv_license_status`,
   * `lv_license_expiry`, `lv_license_expiry_string`, `lv_registered_site_url`,
   * `lv_last_usage_report`, and transients `lv_last_license_check` and
   * `lv_license_alert` (None when absent).
   */
  datatype Record = Record(
    key: string,
    status: Status,
    expiry: int,
    expiryString: string,
    registeredSite: string,
    lastCheck: Option<int>,
    alert: Option<Alert>,
    lastUsageReport: int)

  /** What the periodic check decided: the record it leaves and its answer. */
  datatype Verdict = Verdict(record: Record, active: bool)

  /** The record of a fresh install: every option at its read default. */
  function Initial(): Record {
    Record("", Inactive, 0, "", "", None, None, 0)
  }

  /** "Active and not yet expired": what every cached answer reports. */
  predicate Valid(r: Record, now: int) {
    r.status == Active && now < r.expiry
  }

  /** A server round-trip is due when forced, when no (truthy) stamp exists, or after a day. */
  predicate Stale(r: Record, now: int, force: bool) {
    force || r.lastCheck.None? || r.lastCheck.value == 0 || now - r.lastCheck.value > Day
  }

  /** The server's reply affirms the license: `status` is "valid" and `expiry`, `site_url` are set. */
  predicate Affirms(d: map<string, string>) {
    "status" in d && d["status"] == "valid" && "expiry" in d && "site_url" in d
  }

  /** `lv_report_usage_time`: report at most once a day; only an HTTP 200 moves the stamp. */
  function ReportUsage(r: Record, now: int, reply: Reply): (r': Record)
    ensures r' != r <==> now - r.lastUsageReport > Day && reply.Http? && reply.code == 200
    ensures r' == r.(lastUsageReport := r'.lastUsageReport)
    ensures r'.lastUsageReport == now || r'.lastUsageReport == r.lastUsageReport
  {
    if now - r.lastUsageReport > Day && reply.Http? && reply.code == 200 then r.(lastUsageReport := now)
    else r
  }

  /**
   * The throttle: once a report has stamped `now`, no report in the
   * following day changes anything, whatever its reply.
   */
  lemma UsageReportThrottled(r: Record, now: int, later: int, reply: Reply, reply2: Reply)
    requires later <= now + Day
    ensures var r' := ReportUsage(r, now, reply);
      r'.lastUsageReport == now ==> ReportUsage(r', later, reply2) == r'
  {
  }

  /** The record after the server affirmed the license with expiry `exp`. */
  function Confirmed(r: Record, now: int, exp: int, d: map<string, string>, usage: Reply): Record
    requires "expiry" in d
  {
    var site := if "site_url" in d then d["site_url"] else "";
    ReportUsage(r.(status := Active, expiry := exp, expiryString := d["expiry"], registeredSite := site,
                   alert := None, lastCheck := Some(now)), now, usage)
  }

  /** The record cleared to inactive: no expiry and no expiry text. */
  function Cleared(r: Record, alert: Alert): Record {
    r.(status := Inactive, expiry := 0, expiryString := "", alert := Some(alert))
  }

  /**
   * `lv_is_plugin_activated($force)`: `reply` is what the verify request
   * would return and `usage` what the usage report would return; each is
   * consulted only when that request is made.
   */
  function Check(r: Record, now: int, force: bool, home: string, strtotime: string -> Option<int>,
                 reply: Reply, usage: Reply): Verdict
  {
    if Empty(r.key) then Verdict(r.(status := Inactive), false)
    else if r.status == Active && now >= r.expiry then
      Verdict(r.(status := Inactive, alert := Some(LicenseExpired)), false)
    else if !Stale(r, now, force) then Verdict(r, Valid(r, now))
    else Recheck(r, now, home, strtotime, reply, usage)
  }

  /** The check's handling of the verify request's outcome. */
  function Recheck(r: Record, now: int, home: string, strtotime: string -> Option<int>, reply: Reply, usage: Reply): Verdict
  {
    match reply
    case NetError(reason) =>
      if Valid(r, now) then Verdict(r, true)
      else Verdict(r.(alert := Some(Unreachable(reason))), false)
    case Http(code, body, json) =>
      if code != 200 then Verdict(r.(alert := Some(HttpFailure(code, body))), Valid(r, now))
      else if json.NotAnArray? || |json.members| == 0 then
        Verdict(r.(alert := Some(InvalidResponse(body))), Valid(r, now))
      else Judge(r, now, home, strtotime, json.members, usage)
  }

  /** The check's reading of a non-empty decoded reply. */
  function Judge(r: Record, now: int, home: string, strtotime: string -> Option<int>, d: map<string, string>, usage: Reply): Verdict
  {
    if Affirms(d) then
      var exp := strtotime(d["expiry"]);
      if exp.None? || exp.value <= now then Verdict(Cleared(r, ExpiredOrInvalid), false)
      else if !Empty(d["site_url"]) && d["site_url"] != home then
        Verdict(r.(status := Inactive, alert := Some(InvalidOrUsed)), false)
      else Verdict(Confirmed(r, now, exp.value, d, usage), true)
    else
      var alert := if "message" in d then ServerMessage(d["message"]) else InvalidOrUsed;
      Verdict(Cleared(r, alert).(lastCheck := Some(now)), false)
  }

  /** What the License page reports after an activation attempt. */
  datatype Activation =
    | MissingKey                 // "Please enter a license key."
    | ConnectFailed(reason: string)
    | HttpRejected(code: int, body: string)
    | BadFormat(body: string)
    | EmptyReply
    | Refused(text: string)      // the server's message, or "invalid or already used"
    | ExpiredKey                 // "License key is expired or invalid."
    | Activated(expiryText: string)

  /**
   * The License page's activate handler for `newKey`. Unlike the periodic
   * check it does not compare the returned `site_url` with this site.
   */
  function Activate(r: Record, now: int, strtotime: string -> Option<int>, newKey: string,
                    reply: Reply, usage: Reply): (Record, Activation)
  {
    if Empty(newKey) then (r, MissingKey)
    else match reply
      case NetError(reason) => (r, ConnectFailed(reason))
      case Http(code, body, json) =>
        if code != 200 then (r, HttpRejected(code, body))
        else if json.NotAnArray? then (r, BadFormat(body))
        else if |json.members| == 0 then (r, EmptyReply)
        else
          var d := json.members;
          if !("status" in d && d["status"] == "valid") then
            var text := if "message" in d then d["message"] else "License key is invalid or already used.";
            (r.(status := Inactive, expiry := 0, expiryString := ""), Refused(text))
          else
            var exp := if "expiry" in d then strtotime(d["expiry"]) else None;
            if exp.None? || exp.value <= now then
              (r.(status := Inactive, expiry := 0, expiryString := ""), ExpiredKey)
            else
              (Confirmed(r.(key := newKey), now, exp.value, d, usage), Activated(d["expiry"]))
  }

  /**
   * The License page's deactivate handler: runs only when a key is stored;
   * clears status, expiry, site and both transients, but keeps the key and
   * the usage-report stamp.
   */
  function Deactivate(r: Record): (r': Record)
    ensures r'.key == r.key && r'.lastUsageReport == r.lastUsageReport
    ensures !Empty(r.key) ==> (r'.status == Inactive && r'.expiry == 0 && r'.expiryString == "" && r'.registeredSite == ""
      && r'.lastCheck == None && r'.alert == None)
    ensures Empty(r.key) ==> r' == r
  {
    if Empty(r.key) then r
    else r.(status := Inactive, expiry := 0, expiryString := "", registeredSite := "", lastCheck := None, alert := None)
  }

  // ---------------------------------------------------------------------------
  // Properties of the periodic check

  /** A true answer is sound: the record it leaves is active and unexpired. */
  lemma CheckSound(r: Record, now: int, force: bool, home: string, strtotime: string -> Option<int>, reply: Reply, usage: Reply)
    ensures var v := Check(r, now, force, home, strtotime, reply, usage);
      v.active ==> Valid(v.record, now)
  {
  }

  /**
   * Within a day of the last check and unforced, no request is made: the
   * verdict does not depend on either reply, and the answer is the stored one.
   * The only writes are the early ones (no key, or an active license whose
   * expiry passed).
   */
  lemma CheckCached(r: Record, now: int, home: string, strtotime: string -> Option<int>,
                    reply: Reply, usage: Reply, reply2: Reply, usage2: Reply)
    requires !Stale(r, now, false)
    ensures Check(r, now, false, home, strtotime, reply, usage) == Check(r, now, false, home, strtotime, reply2, usage2)
    ensures Check(r, now, false, home, strtotime, reply, usage).active == (!Empty(r.key) && Valid(r, now))
    ensures !Empty(r.key) && !(r.status == Active && now >= r.expiry) ==>
      Check(r, now, false, home, strtotime, reply, usage).record == r
  {
  }

  /**
   * An affirmative reply with an unparseable or past expiry clears the
   * license; the last-check stamp is not refreshed.
   */
  lemma CheckBadExpiry(r: Record, now: int, force: bool, home: string, strtotime: string -> Option<int>,
                       body: string, d: map<string, string>, usage: Reply)
    requires !Empty(r.key) && !(r.status == Active && now >= r.expiry) && Stale(r, now, force)
    requires d != map[] && Affirms(d)
    requires strtotime(d["expiry"]).None? || strtotime(d["expiry"]).value <= now
    ensures var v := Check(r, now, force, home, strtotime, Http(200, body, Object(d)), usage);
      && !v.active
      && v.record == r.(status := Inactive, expiry := 0, expiryString := "", alert := Some(ExpiredOrInvalid))
  {
  }

  /**
   * An affirmative reply naming another site deactivates the license; expiry
   * and the last-check stamp stay as they were.
   */
  lemma CheckWrongSite(r: Record, now: int, force: bool, home: string, strtotime: string -> Option<int>,
                       body: string, d: map<string, string>, usage: Reply)
    requires !Empty(r.key) && !(r.status == Active && now >= r.expiry) && Stale(r, now, force)
    requires d != map[] && Affirms(d)
    requires strtotime(d["expiry"]).Some? && strtotime(d["expiry"]).value > now
    requires !Empty(d["site_url"]) && d["site_url"] != home
    ensures var v := Check(r, now, force, home, strtotime, Http(200, body, Object(d)), usage);
      && !v.active
      && v.record == r.(status := Inactive, alert := Some(InvalidOrUsed))
  {
  }

  /**
   * An affirmative reply for this site with a future expiry activates the
   * license until the parsed expiry and stamps the check time.
   */
  lemma CheckConfirms(r: Record, now: int, force: bool, home: string, strtotime: string -> Option<int>,
                      body: string, d: map<string, string>, usage: Reply)
    requires !Empty(r.key) && !(r.status == Active && now >= r.expiry) && Stale(r, now, force)
    requires d != map[] && Affirms(d)
    requires strtotime(d["expiry"]).Some? && strtotime(d["expiry"]).value > now
    requires Empty(d["site_url"]) || d["site_url"] == home
    ensures var v := Check(r, now, force, home, strtotime, Http(200, body, Object(d)), usage);
      && v.active
      && v.record.status == Active && v.record.expiry == strtotime(d["expiry"]).value
      && v.record.expiryString == d["expiry"] && v.record.key == r.key
      && v.record.lastCheck == Some(now) && v.record.alert == None
  {
  }

  /** A transport failure that is not an affirmation keeps key, status and expiry. */
  predicate TransportFailure(reply: Reply) {
    reply.NetError? || reply.code != 200 || reply.json.NotAnArray? || |reply.json.members| == 0
  }

  /**
   * Transport failures (network error, non-200, empty or non-array body)
   * keep the stored key, status and expiry and answer the prior validity;
   * only the alert may change, and a network error while still valid leaves
   * the record untouched.
   */
  lemma CheckTransportFailure(r: Record, now: int, force: bool, home: string, strtotime: string -> Option<int>,
                              reply: Reply, usage: Reply)
    requires !Empty(r.key) && !(r.status == Active && now >= r.expiry) && Stale(r, now, force)
    requires TransportFailure(reply)
    ensures var v := Check(r, now, force, home, strtotime, reply, usage);
      && v.active == Valid(r, now)
      && v.record == r.(alert := v.record.alert)
      && (reply.NetError? && Valid(r, now) ==> v.record == r)
  {
  }

  /**
   * Only a confirming or refusing reply stamps the check time: after a
   * transport failure the next unforced check asks the server again.
   */
  lemma FailedCheckRetries(r: Record, now: int, later: int, home: string, strtotime: string -> Option<int>,
                           reply: Reply, usage: Reply)
    requires !Empty(r.key) && !(r.status == Active && now >= r.expiry) && Stale(r, now, false)
    requires TransportFailure(reply) && later >= now
    ensures Stale(Check(r, now, false, home, strtotime, reply, usage).record, later, false)
  {
  }

  /**
   * A forced check that fails in transport keeps the earlier stamp: if that
   * stamp is still under a day old at `later`, the next unforced check
   * answers from the cache without asking.
   */
  lemma ForcedFailureKeepsStamp(r: Record, now: int, later: int, home: string, strtotime: string -> Option<int>,
                                reply: Reply, usage: Reply)
    requires !Empty(r.key) && !(r.status == Active && now >= r.expiry)
    requires TransportFailure(reply) && !Stale(r, later, false)
    ensures Check(r, now, true, home, strtotime, reply, usage).record.lastCheck == r.lastCheck
    ensures !Stale(Check(r, now, true, home, strtotime, reply, usage).record, later, false)
  {
  }

  /**
   * Any other reply (an object without an affirmative status) deactivates,
   * clears the expiry and stamps the check time.
   */
  lemma CheckRefused(r: Record, now: int, force: bool, home: string, strtotime: string -> Option<int>,
                     body: string, d: map<string, string>, usage: Reply)
    requires !Empty(r.key) && !(r.status == Active && now >= r.expiry) && Stale(r, now, force)
    requires d != map[] && !Affirms(d)
    ensures var v := Check(r, now, force, home, strtotime, Http(200, body, Object(d)), usage);
      && !v.active && v.record.status == Inactive && v.record.expiry == 0 && v.record.expiryString == ""
      && v.record.lastCheck == Some(now)
      && v.record.alert == Some(if "message" in d then ServerMessage(d["message"]) else InvalidOrUsed)
  {
  }

  /**
   * After a confirming check, an unforced check within the next day makes no
   * request (its verdict is the same for every reply) and answers whether
   * the expiry is still ahead.
   */
  lemma CheckTwiceWithinADay(r: Record, now: int, later: int, home: string, strtotime: string -> Option<int>,
                             reply: Reply, usage: Reply, reply2: Reply, usage2: Reply, reply3: Reply, usage3: Reply)
    requires now <= later <= now + Day && now != 0
    requires Check(r, now, false, home, strtotime, reply, usage).active
    requires Check(r, now, false, home, strtotime, reply, usage).record.lastCheck == Some(now)
    ensures var first := Check(r, now, false, home, strtotime, reply, usage).record;
      && Check(first, later, false, home, strtotime, reply2, usage2) == Check(first, later, false, home, strtotime, reply3, usage3)
      && Check(first, later, false, home, strtotime, reply2, usage2).active == (later < first.expiry)
  {
    var first := Check(r, now, false, home, strtotime, reply, usage).record;
    assert !Empty(first.key);
    assert !Stale(first, later, false);
  }

  // ---------------------------------------------------------------------------
  // Properties of activation and deactivation

  /** Activation succeeds only with a non-empty key, and leaves an active, unexpired record for it. */
  lemma ActivateSound(r: Record, now: int, strtotime: string -> Option<int>, newKey: string, reply: Reply, usage: Reply)
    ensures var (r', outcome) := Activate(r, now, strtotime, newKey, reply, usage);
      outcome.Activated? ==> !Empty(newKey) && r'.key == newKey && Valid(r', now) && r'.lastCheck == Some(now) && r'.alert == None
    ensures var (r', outcome) := Activate(r, now, strtotime, newKey, reply, usage);
      !outcome.Activated? ==> r'.key == r.key && r'.lastCheck == r.lastCheck && r'.alert == r.alert
  {
  }

  /**
   * Activation does not look at the reply's `site_url`: a key registered to
   * another site activates here, and the next forced check revokes it.
   */
  lemma ActivationIgnoresSite(r: Record, now: int, home: string, strtotime: string -> Option<int>, newKey: string,
                              body: string, d: map<string, string>, usage: Reply, reply2: Reply, usage2: Reply)
    requires !Empty(newKey) && d != map[] && Affirms(d)
    requires strtotime(d["expiry"]).Some? && strtotime(d["expiry"]).value > now
    requires !Empty(d["site_url"]) && d["site_url"] != home
    ensures var (r', outcome) := Activate(r, now, strtotime, newKey, Http(200, body, Object(d)), usage);
      && outcome.Activated? && Valid(r', now)
      && !Check(r', now, true, home, strtotime, Http(200, body, Object(d)), usage2).active
  {
  }

  /** Deactivating then checking: the license is off until a new activation. */
  lemma DeactivateThenCheck(r: Record, now: int, force: bool, home: string, strtotime: string -> Option<int>,
                            reply: Reply, usage: Reply)
    requires !Empty(r.key)
    ensures var r' := Deactivate(r);
      && !Valid(r', now)
      && (Check(r', now, force, home, strtotime, reply, usage).active ==>
            reply.Http? && reply.code == 200 && reply.json.Object? && Affirms(reply.json.members))
  {
  }

  // ---------------------------------------------------------------------------
  // The option store, written step by step as the plugin does

  class LicenseOptions {
    var key: string
    var status: Status
    var expiry: int
    var expiryString: string
    var registeredSite: string
    var lastCheck: Option<int>
    var alert: Option<Alert>
    var lastUsageReport: int

    function Snapshot(): Record
      reads this
    {
      Record(key, status, expiry, expiryString, registeredSite, lastCheck, alert, lastUsageReport)
    }

    constructor ()
      ensures Snapshot() == Initial()
    {
      key, status, expiry, expiryString := "", Inactive, 0, "";
      registeredSite, lastCheck, alert, lastUsageReport := "", None, None, 0;
    }

    method ReportUsageTime(now: int, usage: Reply)
      modifies this
      ensures Snapshot() == ReportUsage(old(Snapshot()), now, usage)
    {
      if now - lastUsageReport > Day {
        if usage.Http? && usage.code == 200 {
          lastUsageReport := now;
        }
      }
    }

    method IsPluginActivated(now: int, force: bool, home: string, strtotime: string -> Option<int>,
                             reply: Reply, usage: Reply) returns (active: bool)
      modifies this
      ensures Snapshot() == Check(old(Snapshot()), now, force, home, strtotime, reply, usage).record
      ensures active == Check(old(Snapshot()), now, force, home, strtotime, reply, usage).active
      ensures active ==> status == Active && now < expiry
    {
      if Empty(key) {
        status := Inactive;
        return false;
      }
      if status == Active && now >= expiry {
        status := Inactive;
        alert := Some(LicenseExpired);
        return false;
      }
      if !(force || lastCheck.None? || lastCheck.value == 0 || now - lastCheck.value > Day) {
        return status == Active && now < expiry;
      }
      active := VerifyWithServer(now, home, strtotime, reply, usage);
      CheckSound(old(Snapshot()), now, force, home, strtotime, reply, usage);
    }

    /** The verify request's outcome, as `lv_is_plugin_activated` handles it. */
    method VerifyWithServer(now: int, home: string, strtotime: string -> Option<int>, reply: Reply, usage: Reply)
      returns (active: bool)
      modifies this
      ensures Snapshot() == Recheck(old(Snapshot()), now, home, strtotime, reply, usage).record
      ensures active == Recheck(old(Snapshot()), now, home, strtotime, reply, usage).active
    {
      if reply.NetError? {
        if status == Active && now < expiry {
          return true;
        }
        alert := Some(Unreachable(reply.reason));
        return false;
      }
      if reply.code != 200 {
        alert := Some(HttpFailure(reply.code, reply.body));
        return status == Active && now < expiry;
      }
      if reply.json.NotAnArray? || |reply.json.members| == 0 {
        alert := Some(InvalidResponse(reply.body));
        return status == Active && now < expiry;
      }
      active := ApplyVerdict(now, home, strtotime, reply.json.members, usage);
    }

    /** A non-empty decoded reply, as `lv_is_plugin_activated` applies it. */
    method ApplyVerdict(now: int, home: string, strtotime: string -> Option<int>, d: map<string, string>, usage: Reply)
      returns (active: bool)
      modifies this
      ensures Snapshot() == Judge(old(Snapshot()), now, home, strtotime, d, usage).record
      ensures active == Judge(old(Snapshot()), now, home, strtotime, d, usage).active
    {
      if "status" in d && d["status"] == "valid" && "expiry" in d && "site_url" in d {
        var exp := strtotime(d["expiry"]);
        if exp.None? || exp.value <= now {
          alert := Some(ExpiredOrInvalid);
          status := Inactive;
          expiry := 0;
          expiryString := "";
          return false;
        }
        if !Empty(d["site_url"]) && d["site_url"] != home {
          alert := Some(InvalidOrUsed);
          status := Inactive;
          return false;
        }
        status := Active;
        expiry := exp.value;
        expiryString := d["expiry"];
        registeredSite := d["site_url"];
        alert := None;
        lastCheck := Some(now);
        ReportUsageTime(now, usage);
        return true;
      } else {
        alert := Some(if "message" in d then ServerMessage(d["message"]) else InvalidOrUsed);
        status := Inactive;
        expiry := 0;
        expiryString := "";
        lastCheck := Some(now);
        return false;
      }
    }

    method ActivateLicense(now: int, strtotime: string -> Option<int>, newKey: string, reply: Reply, usage: Reply)
      returns (outcome: Activation)
      modifies this
      ensures (Snapshot(), outcome) == Activate(old(Snapshot()), now, strtotime, newKey, reply, usage)
    {
      if Empty(newKey) {
        return MissingKey;
      }
      if reply.NetError? {
        return ConnectFailed(reply.reason);
      }
      if reply.code != 200 {
        return HttpRejected(reply.code, reply.body);
      }
      if reply.json.NotAnArray? {
        return BadFormat(reply.body);
      }
      var d := reply.json.members;
      if |d| == 0 {
        return EmptyReply;
      }
      if !("status" in d && d["status"] == "valid") {
        status := Inactive;
        expiry := 0;
        expiryString := "";
        return Refused(if "message" in d then d["message"] else "License key is invalid or already used.");
      }
      var exp := if "expiry" in d then strtotime(d["expiry"]) else None;
      if exp.None? || exp.value <= now {
        status := Inactive;
        expiry := 0;
        expiryString := "";
        return ExpiredKey;
      }
      key := newKey;
      status := Active;
      expiry := exp.value;
      expiryString := d["expiry"];
      registeredSite := if "site_url" in d then d["site_url"] else "";
      alert := None;
      lastCheck := Some(now);
      ReportUsageTime(now, usage);
      return Activated(d["expiry"]);
    }

    method DeactivateLicense()
      modifies this
      ensures Snapshot() == Deactivate(old(Snapshot()))
    {
      if !Empty(key) {
        status := Inactive;
        expiry := 0;
        expiryString := "";
        registeredSite := "";
        lastCheck := None;
        alert := None;
      }
    }
  }
}
