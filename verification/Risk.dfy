/** Risk rules for withdrawals: each rule may report a finding, and one blocking
    finding rejects the withdrawal. */
module Risk {
  import opened Wrappers

  datatype Severity = Review | Block

  datatype RuleName = AmountLimitName | IpReputationName | DeviceNoveltyName

  datatype Finding = Finding(rule: RuleName, severity: Severity)

  datatype Rule =
    | AmountLimit(warnLimit: int, blockLimit: int)
    | IpReputation(blockedIps: seq<string>, trustedIps: seq<string>)
    | DeviceNovelty(reviewLimit: int)

  datatype Context = Context(requestId: nat, userId: string, amount: int, ip: Option<string>, device: Option<string>)

  datatype Device = Device(firstSeen: int, lastSeen: int)

  datatype Event = Event(requestId: nat, userId: string, finding: Finding)

  datatype State = State(devices: map<(string, string), Device>, events: seq<Event>)

  const EMPTY := State(map[], [])

  /** Absent and empty strings are both treated as missing. */
  function Given(s: Option<string>): Option<string> {
    if s.Some? && s.value != "" then s else None
  }

  function Evaluate(rule: Rule, context: Context, devices: map<(string, string), Device>): Option<Finding> {
    match rule
    case AmountLimit(warn, block) =>
      if context.amount >= block then Some(Finding(AmountLimitName, Block))
      else if context.amount >= warn then Some(Finding(AmountLimitName, Review))
      else None
    case IpReputation(blocked, trusted) =>
      (match Given(context.ip)
       case None => None
       case Some(ip) =>
         if ip in blocked then Some(Finding(IpReputationName, Block))
         else if trusted != [] && ip !in trusted then Some(Finding(IpReputationName, Review))
         else None)
    case DeviceNovelty(limit) =>
      (match Given(context.device)
       case None => None
       case Some(device) =>
         if (context.userId, device) !in devices && context.amount >= limit
         then Some(Finding(DeviceNoveltyName, Review)) else None)
  }

  /** Only the device rule writes: it stores a new device or refreshes when it was last seen. */
  function Remember(rule: Rule, context: Context, devices: map<(string, string), Device>, now: int): map<(string, string), Device> {
    if rule.DeviceNovelty? && Given(context.device).Some? then
      var key := (context.userId, Given(context.device).value);
      devices[key := Device(if key in devices then devices[key].firstSeen else now, now)]
    else devices
  }

  /** Devices after, and findings of, the first n rules. */
  function Findings(rules: seq<Rule>, context: Context, devices: map<(string, string), Device>, now: int, n: nat)
    : (seq<Finding>, map<(string, string), Device>)
    requires n <= |rules|
  {
    if n == 0 then ([], devices)
    else
      var (found, known) := Findings(rules, context, devices, now, n - 1);
      var finding := Evaluate(rules[n - 1], context, known);
      (if finding.Some? then found + [finding.value] else found, Remember(rules[n - 1], context, known, now))
  }

  function Events(context: Context, findings: seq<Finding>): (events: seq<Event>)
    ensures |events| == |findings|
    ensures forall i :: 0 <= i < |findings| ==> events[i] == Event(context.requestId, context.userId, findings[i])
  {
    seq(|findings|, i requires 0 <= i < |findings| => Event(context.requestId, context.userId, findings[i]))
  }

  predicate Blocked(findings: seq<Finding>) { exists i :: 0 <= i < |findings| && findings[i].severity == Block }

  predicate NeedsReview(findings: seq<Finding>) { exists i :: 0 <= i < |findings| && findings[i].severity == Review }

  /** The store keeps devices and events whether or not the withdrawal is rejected. */
  function EvaluateSpec(rules: seq<Rule>, s: State, context: Context, now: int): (State, seq<Finding>) {
    var (findings, devices) := Findings(rules, context, s.devices, now, |rules|);
    (State(devices, s.events + Events(context, findings)), findings)
  }

  /** A rule that blocks this withdrawal, whatever devices are known. */
  predicate Blocks(rule: Rule, context: Context) {
    match rule
    case AmountLimit(_, block) => context.amount >= block
    case IpReputation(blocked, _) => Given(context.ip).Some? && Given(context.ip).value in blocked
    case DeviceNovelty(_) => false
  }

  /** The withdrawal is blocked exactly when the amount reaches a hard limit or the
      address is on a block list: no order of rules and no known device changes that. */
  lemma {:induction false} BlockedIff(rules: seq<Rule>, context: Context, devices: map<(string, string), Device>, now: int, n: nat)
    requires n <= |rules|
    ensures Blocked(Findings(rules, context, devices, now, n).0) <==> exists i :: 0 <= i < n && Blocks(rules[i], context)
  {
    if n > 0 {
      BlockedIff(rules, context, devices, now, n - 1);
      var (found, known) := Findings(rules, context, devices, now, n - 1);
      var finding := Evaluate(rules[n - 1], context, known);
      assert finding.Some? && finding.value.severity == Block <==> Blocks(rules[n - 1], context);
      if finding.Some? {
        assert (found + [finding.value])[|found|] == finding.value;
        assert forall i :: 0 <= i < |found| ==> (found + [finding.value])[i] == found[i];
      }
    }
  }

  /** The rule at i asks for a review.  Only the first device rule can: it remembers the
      device, whatever the amount, so a later one no longer finds it new. */
  predicate Reviews(rules: seq<Rule>, i: nat, context: Context, devices: map<(string, string), Device>)
    requires i < |rules|
  {
    match rules[i]
    case AmountLimit(warn, block) => warn <= context.amount < block
    case IpReputation(blocked, trusted) =>
      Given(context.ip).Some? && Given(context.ip).value !in blocked && trusted != [] && Given(context.ip).value !in trusted
    case DeviceNovelty(limit) =>
      && Given(context.device).Some? && (context.userId, Given(context.device).value) !in devices
      && context.amount >= limit && !HasDeviceRule(rules, i)
  }

  predicate HasDeviceRule(rules: seq<Rule>, n: nat)
    requires n <= |rules|
  {
    exists j :: 0 <= j < n && rules[j].DeviceNovelty?
  }

  /** After the first n rules exactly one more device is known, if a device was given and a
      device rule was among them; a device known before keeps when it was first seen. */
  lemma {:induction false} DevicesAfter(rules: seq<Rule>, context: Context, devices: map<(string, string), Device>, now: int, n: nat)
    requires n <= |rules|
    ensures var known := Findings(rules, context, devices, now, n).1;
      if Given(context.device).Some? && HasDeviceRule(rules, n) then
        var key := (context.userId, Given(context.device).value);
        known == devices[key := Device(if key in devices then devices[key].firstSeen else now, now)]
      else known == devices
  {
    if n > 0 {
      DevicesAfter(rules, context, devices, now, n - 1);
      assert rules[n - 1].DeviceNovelty? ==> HasDeviceRule(rules, n);
      assert HasDeviceRule(rules, n - 1) ==> HasDeviceRule(rules, n);
    }
  }

  /** A review is asked for exactly when one of the rules does, judged on the devices known
      before the evaluation. */
  lemma {:induction false} ReviewedIff(rules: seq<Rule>, context: Context, devices: map<(string, string), Device>, now: int, n: nat)
    requires n <= |rules|
    ensures NeedsReview(Findings(rules, context, devices, now, n).0) <==> exists i :: 0 <= i < n && Reviews(rules, i, context, devices)
  {
    if n > 0 {
      ReviewedIff(rules, context, devices, now, n - 1);
      DevicesAfter(rules, context, devices, now, n - 1);
      var (found, known) := Findings(rules, context, devices, now, n - 1);
      var finding := Evaluate(rules[n - 1], context, known);
      assert finding.Some? && finding.value.severity == Review <==> Reviews(rules, n - 1, context, devices);
      if finding.Some? {
        assert (found + [finding.value])[|found|] == finding.value;
        assert forall i :: 0 <= i < |found| ==> (found + [finding.value])[i] == found[i];
      }
    }
  }

  function NameOf(rule: Rule): RuleName {
    match rule
    case AmountLimit(_, _) => AmountLimitName
    case IpReputation(_, _) => IpReputationName
    case DeviceNovelty(_) => DeviceNoveltyName
  }

  /** One finding of each of the first n rules that blocks or asks for a review, in order. */
  function Reported(rules: seq<Rule>, context: Context, devices: map<(string, string), Device>, n: nat): seq<Finding>
    requires n <= |rules|
  {
    if n == 0 then []
    else
      Reported(rules, context, devices, n - 1)
        + if Blocks(rules[n - 1], context) then [Finding(NameOf(rules[n - 1]), Block)]
          else if Reviews(rules, n - 1, context, devices) then [Finding(NameOf(rules[n - 1]), Review)]
          else []
  }

  lemma {:induction false} FindingsExact(rules: seq<Rule>, context: Context, devices: map<(string, string), Device>, now: int, n: nat)
    requires n <= |rules|
    ensures Findings(rules, context, devices, now, n).0 == Reported(rules, context, devices, n)
  {
    if n > 0 {
      FindingsExact(rules, context, devices, now, n - 1);
      DevicesAfter(rules, context, devices, now, n - 1);
    }
  }

  /** An evaluation stores one event for each of these findings, and no other, and remembers
      a given device exactly when some device rule is there. */
  lemma EvaluationExact(rules: seq<Rule>, s: State, context: Context, now: int)
    ensures var (s', findings) := EvaluateSpec(rules, s, context, now);
      && findings == Reported(rules, context, s.devices, |rules|)
      && |s'.events| == |s.events| + |findings| && s'.events[..|s.events|] == s.events
      && (forall i :: 0 <= i < |findings| ==> s'.events[|s.events| + i] == Event(context.requestId, context.userId, findings[i]))
      && (if Given(context.device).Some? && HasDeviceRule(rules, |rules|) then
            var key := (context.userId, Given(context.device).value);
            s'.devices == s.devices[key := Device(if key in s.devices then s.devices[key].firstSeen else now, now)]
          else s'.devices == s.devices)
  {
    FindingsExact(rules, context, s.devices, now, |rules|);
    DevicesAfter(rules, context, s.devices, now, |rules|);
  }

  class RiskService {
    const rules: seq<Rule>
    var devices: map<(string, string), Device>
    var events: seq<Event>

    constructor (rules: seq<Rule>)
      ensures this.rules == rules && View() == EMPTY
    {
      this.rules := rules;
      devices, events := map[], [];
    }

    ghost function View(): State
      reads this
    {
      State(devices, events)
    }

    /** Failure means the withdrawal was rejected; the value says whether it needs review. */
    method EvaluateWithdrawal(context: Context, now: int) returns (r: Result<bool, ()>)
      modifies this
      ensures var (s, findings) := EvaluateSpec(rules, old(View()), context, now);
        && View() == s
        && r == if Blocked(findings) then Failure(()) else Success(NeedsReview(findings))
    {
      var findings: seq<Finding> := [];
      for i := 0 to |rules|
        invariant (findings, devices) == Findings(rules, context, old(devices), now, i)
        invariant events == old(events)
      {
        var finding := Evaluate(rules[i], context, devices);
        devices := Remember(rules[i], context, devices, now);
        if finding.Some? {
          findings := findings + [finding.value];
        }
      }
      events := events + Events(context, findings);
      if Blocked(findings) {
        return Failure(());
      }
      r := Success(NeedsReview(findings));
    }
  }
}
