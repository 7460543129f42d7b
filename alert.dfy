/** The alert engine (src/stores/alert.ts): balance rules, the notifications they raise, and the
    rule and notification bookkeeping. The balances come from the data store and are a parameter
    of `CheckAlerts`; so are the clock, the ids of new notifications and the text a number prints
    as. Browser notifications and rule persistence are not part of this model. */
module Alerts {
  import opened Wrappers
  import opened Seqs
  import opened Types

  const RuleNotFound := "预警规则不存在"

  /** The most notifications kept after a check. */
  const MaxNotifications: nat := 100

  datatype RuleKind = BalanceRule | UsageRule

  datatype AlertRule = AlertRule(
    id: string,
    accountId: string,
    kind: RuleKind,
    threshold: real,
    operator: string,
    enabled: Option<bool>,
    createdAt: int)

  /** `rule.enabled` read as a condition: only `true` passes; `false`, and a flag a patch
      overwrote with `undefined`, do not. */
  predicate RuleEnabled(r: AlertRule) {
    r.enabled == Some(true)
  }

  /** The fields a caller supplies for a new rule. */
  datatype RuleDraft = RuleDraft(accountId: string, kind: RuleKind, threshold: real, operator: string, enabled: bool)

  /** A `Partial<AlertRule>`: a present field overrides the stored one, the id included. The
      optional flag is `None` when the key is absent, `Some(None)` when it is present with the
      value `undefined`, and `Some(Some(b))` when it holds b. */
  datatype RulePatch = RulePatch(
    id: Option<string>,
    accountId: Option<string>,
    kind: Option<RuleKind>,
    threshold: Option<real>,
    operator: Option<string>,
    enabled: Option<Option<bool>>,
    createdAt: Option<int>)

  datatype Notification = Notification(
    id: string,
    ruleId: string,
    accountId: string,
    message: string,
    level: Level,
    triggeredAt: int,
    read: bool)

  /** `evaluateCondition(value, threshold, operator)`: the comparison the operator names; an
      unknown operator never fires. */
  function EvaluateCondition(value: real, threshold: real, op: string): (r: bool)
    ensures op == "lt" ==> (r <==> value < threshold)
    ensures op == "lte" ==> (r <==> value <= threshold)
    ensures op == "gt" ==> (r <==> value > threshold)
    ensures op == "gte" ==> (r <==> value >= threshold)
    ensures r ==> op in {"lt", "lte", "gt", "gte"}
  {
    match op
    case "lt" => value < threshold
    case "lte" => value <= threshold
    case "gt" => value > threshold
    case "gte" => value >= threshold
    case _ => false
  }

  /** `lt` and `gte` split every pair of values between them, and so do `gt` and `lte`; equal
      values fire exactly the two inclusive operators. */
  lemma EvaluateComplements(value: real, threshold: real)
    ensures EvaluateCondition(value, threshold, "lt") <==> !EvaluateCondition(value, threshold, "gte")
    ensures EvaluateCondition(value, threshold, "gt") <==> !EvaluateCondition(value, threshold, "lte")
    ensures value == threshold ==>
      EvaluateCondition(value, threshold, "lte") && EvaluateCondition(value, threshold, "gte")
      && !EvaluateCondition(value, threshold, "lt") && !EvaluateCondition(value, threshold, "gt")
  {
  }

  /** `getOperatorText(operator)`. */
  function GetOperatorText(op: string): (s: string)
    ensures s != op <==> op in {"lt", "lte", "gt", "gte"}
  {
    OperatorTextTranslates(op, op);
    OperatorText(op)
  }

  /** The level of a triggered alert: critical below the threshold, a warning otherwise. */
  function LevelOf(balance: real, threshold: real): (l: Level)
    ensures l == Critical <==> balance < threshold
  {
    if balance < threshold then Critical else Warning
  }

  /** `账户余额 ${balance} ${currency} ${operatorText} ${threshold}`, with `show` the text a number
      prints as. */
  function AlertMessage(b: Balance, rule: AlertRule, show: real -> string): string {
    "账户余额 " + show(b.balance) + " " + b.currency + " " + GetOperatorText(rule.operator) + " " + show(rule.threshold)
  }

  /** The rule is a balance rule, its account has a balance, and the condition holds. */
  predicate Fires(rule: AlertRule, balances: map<string, Balance>) {
    rule.kind == BalanceRule && rule.accountId in balances
    && EvaluateCondition(balances[rule.accountId].balance, rule.threshold, rule.operator)
  }

  /** The position of an unread notification of the rule with the message. */
  function FindUnread(ns: seq<Notification>, ruleId: string, message: string): Option<nat> {
    FindIndex(ns, (n: Notification) => n.ruleId == ruleId && !n.read && n.message == message)
  }

  /** One rule of the loop in `checkAlerts`: when it fires and no unread notification of the rule
      with the same message exists, a new unread notification goes to the front. */
  function CheckRule(rule: AlertRule, ns: seq<Notification>, balances: map<string, Balance>,
                     show: real -> string, id: string, now: int): seq<Notification>
  {
    if !Fires(rule, balances) then ns
    else
      var b := balances[rule.accountId];
      var message := AlertMessage(b, rule, show);
      if FindUnread(ns, rule.id, message).Some? then ns
      else [Notification(id, rule.id, rule.accountId, message, LevelOf(b.balance, rule.threshold), now, false)] + ns
  }

  /** What one rule does, in both directions: it adds a notification exactly when it fires and
      there is no unread duplicate, and the one it adds is unread, at the front, and carries the
      rule, its account, the message and the level. */
  lemma CheckRuleEffect(rule: AlertRule, ns: seq<Notification>, balances: map<string, Balance>,
                        show: real -> string, id: string, now: int)
    ensures var r := CheckRule(rule, ns, balances, show, id, now);
      && (r != ns <==> Fires(rule, balances)
                       && forall i :: 0 <= i < |ns| ==> !(ns[i].ruleId == rule.id && !ns[i].read && ns[i].message == AlertMessage(balances[rule.accountId], rule, show)))
      && (r != ns ==> |r| == |ns| + 1 && r[1..] == ns
                      && r[0] == Notification(id, rule.id, rule.accountId, AlertMessage(balances[rule.accountId], rule, show),
                                              LevelOf(balances[rule.accountId].balance, rule.threshold), now, false))
  {
    var r := CheckRule(rule, ns, balances, show, id, now);
    if r != ns {
      assert r[1..] == ns;
    }
  }

  /** No two unread notifications share their rule and message. */
  predicate NoUnreadDuplicates(ns: seq<Notification>) {
    forall i, j :: 0 <= i < j < |ns| && !ns[i].read && !ns[j].read ==>
      ns[i].ruleId != ns[j].ruleId || ns[i].message != ns[j].message
  }

  lemma CheckRuleNoDuplicates(rule: AlertRule, ns: seq<Notification>, balances: map<string, Balance>,
                              show: real -> string, id: string, now: int)
    requires NoUnreadDuplicates(ns)
    ensures NoUnreadDuplicates(CheckRule(rule, ns, balances, show, id, now))
  {
    var r := CheckRule(rule, ns, balances, show, id, now);
    if r != ns {
      CheckRuleEffect(rule, ns, balances, show, id, now);
      forall i, j | 0 <= i < j < |r| && !r[i].read && !r[j].read
        ensures r[i].ruleId != r[j].ruleId || r[i].message != r[j].message
      {
        if i > 0 { assert r[i] == ns[i - 1] && r[j] == ns[j - 1]; }
        else { assert r[j] == ns[j - 1]; }
      }
    }
  }

  /** The loop over the enabled rules, in order; the rule at position k gets id `newId(k)`. */
  function CheckEach(rules: seq<AlertRule>, ns: seq<Notification>, balances: map<string, Balance>,
                     show: real -> string, newId: nat -> string, now: int): seq<Notification>
  {
    if rules == [] then ns
    else
      var k := |rules| - 1;
      CheckRule(rules[k], CheckEach(rules[..k], ns, balances, show, newId, now), balances, show, newId(k), now)
  }

  /** `notifications.slice(0, 100)` when there are more. */
  function Cap(ns: seq<Notification>): (r: seq<Notification>)
    ensures |r| <= MaxNotifications && |r| <= |ns|
    ensures r == ns[..|r|]
    ensures |ns| <= MaxNotifications ==> r == ns
    ensures |ns| > MaxNotifications ==> |r| == MaxNotifications
  {
    if |ns| > MaxNotifications then ns[..MaxNotifications] else ns
  }

  /** The notification list after `checkAlerts`: unchanged without rules, otherwise the enabled
      rules checked in turn and the list capped. */
  function CheckAlertsResult(rules: seq<AlertRule>, ns: seq<Notification>, balances: map<string, Balance>,
                             show: real -> string, newId: nat -> string, now: int): seq<Notification>
  {
    if rules == [] then ns
    else Cap(CheckEach(Filter(RuleEnabled, rules), ns, balances, show, newId, now))
  }

  /** A notification some rule of the list raised: the rule fires, and the notification names
      it and carries its message. */
  predicate RaisedBy(rules: seq<AlertRule>, balances: map<string, Balance>, show: real -> string, n: Notification) {
    exists rule :: rule in rules && rule.id == n.ruleId && Fires(rule, balances)
                   && n.message == AlertMessage(balances[rule.accountId], rule, show)
  }

  /** What one more rule check keeps of the shape: the list grows by at most one unread
      notification in front, raised by the new rule. */
  lemma CheckEachShapeStep(rules: seq<AlertRule>, before: seq<Notification>, ns: seq<Notification>,
                           balances: map<string, Balance>, show: real -> string, id: string, now: int)
    requires rules != []
    requires |ns| <= |before| <= |ns| + |rules| - 1
    requires before[|before| - |ns|..] == ns
    requires forall i :: 0 <= i < |before| - |ns| ==>
               !before[i].read && before[i].triggeredAt == now && RaisedBy(rules[..|rules| - 1], balances, show, before[i])
    ensures var r := CheckRule(rules[|rules| - 1], before, balances, show, id, now);
      && |ns| <= |r| <= |ns| + |rules|
      && r[|r| - |ns|..] == ns
      && forall i :: 0 <= i < |r| - |ns| ==>
           !r[i].read && r[i].triggeredAt == now && RaisedBy(rules, balances, show, r[i])
  {
    var k := |rules| - 1;
    CheckRuleEffect(rules[k], before, balances, show, id, now);
    var r := CheckRule(rules[k], before, balances, show, id, now);
    var added := if r != before then 1 else 0;
    assert r[added..] == before;
    assert r[|r| - |ns|..] == before[|before| - |ns|..];
    forall i | 0 <= i < |r| - |ns|
      ensures !r[i].read && r[i].triggeredAt == now && RaisedBy(rules, balances, show, r[i])
    {
      if i < added {
        assert rules[k] in rules;
      } else {
        assert r[i] == before[i - added];
        var rule :| rule in rules[..k] && rule.id == before[i - added].ruleId && Fires(rule, balances)
                    && before[i - added].message == AlertMessage(balances[rule.accountId], rule, show);
        assert rule in rules;
      }
    }
  }

  /** The new notifications are unread, stamped now, pushed in front of the old list (which
      follows them in its old order), at most one per rule checked, and each comes from a rule
      that fires. */
  lemma {:induction false} CheckEachShape(rules: seq<AlertRule>, ns: seq<Notification>, balances: map<string, Balance>,
                                          show: real -> string, newId: nat -> string, now: int)
    ensures var r := CheckEach(rules, ns, balances, show, newId, now);
      && |ns| <= |r| <= |ns| + |rules|
      && r[|r| - |ns|..] == ns
      && forall i :: 0 <= i < |r| - |ns| ==>
           !r[i].read && r[i].triggeredAt == now && RaisedBy(rules, balances, show, r[i])
  {
    if rules != [] {
      var k := |rules| - 1;
      CheckEachShape(rules[..k], ns, balances, show, newId, now);
      CheckEachShapeStep(rules, CheckEach(rules[..k], ns, balances, show, newId, now), ns, balances, show, newId(k), now);
    }
  }

  lemma {:induction false} CheckEachNoDuplicates(rules: seq<AlertRule>, ns: seq<Notification>, balances: map<string, Balance>,
                                                 show: real -> string, newId: nat -> string, now: int)
    requires NoUnreadDuplicates(ns)
    ensures NoUnreadDuplicates(CheckEach(rules, ns, balances, show, newId, now))
  {
    if rules != [] {
      var k := |rules| - 1;
      CheckEachNoDuplicates(rules[..k], ns, balances, show, newId, now);
      CheckRuleNoDuplicates(rules[k], CheckEach(rules[..k], ns, balances, show, newId, now), balances, show, newId(k), now);
    }
  }

  lemma CapNoDuplicates(ns: seq<Notification>)
    requires NoUnreadDuplicates(ns)
    ensures NoUnreadDuplicates(Cap(ns))
  {
  }

  /** A notification marked as read. */
  function MarkRead(n: Notification): (r: Notification)
    ensures r.read && r.(read := n.read) == n
  {
    n.(read := true)
  }

  /** The unread notifications. */
  function Unread(ns: seq<Notification>): seq<Notification> {
    Filter((n: Notification) => !n.read, ns)
  }

  /** The unread count is zero exactly when every notification is read. */
  lemma UnreadEmpty(ns: seq<Notification>)
    ensures Unread(ns) == [] <==> forall i :: 0 <= i < |ns| ==> ns[i].read
  {
    var u := Unread(ns);
    if u != [] {
      assert u[0] in u;
    } else {
      forall i | 0 <= i < |ns| ensures ns[i].read {
        assert ns[i] in ns;
      }
    }
  }

  /** Marking one notification read keeps unread notifications distinct. */
  lemma MarkReadNoDuplicates(ns: seq<Notification>, i: nat)
    requires NoUnreadDuplicates(ns) && i < |ns|
    ensures NoUnreadDuplicates(ns[i := MarkRead(ns[i])])
  {
  }

  /** Deleting one notification keeps unread notifications distinct. */
  lemma DeleteNoDuplicates(ns: seq<Notification>, i: nat)
    requires NoUnreadDuplicates(ns) && i < |ns|
    ensures NoUnreadDuplicates(ns[..i] + ns[i + 1..])
  {
    var r := ns[..i] + ns[i + 1..];
    forall a, b | 0 <= a < b < |r| ensures r[a] == ns[if a < i then a else a + 1] && r[b] == ns[if b < i then b else b + 1] { }
  }

  /** `{ ...rule, ...updates }`. */
  function PatchedRule(r: AlertRule, u: RulePatch): (p: AlertRule)
    ensures u == RulePatch(None, None, None, None, None, None, None) ==> p == r
    ensures p.id == u.id.GetOr(r.id) && p.enabled == u.enabled.GetOr(r.enabled)
    ensures u.enabled == Some(None) ==> !RuleEnabled(p)
    ensures p.accountId == u.accountId.GetOr(r.accountId) && p.kind == u.kind.GetOr(r.kind)
    ensures p.threshold == u.threshold.GetOr(r.threshold) && p.operator == u.operator.GetOr(r.operator)
    ensures p.createdAt == u.createdAt.GetOr(r.createdAt)
  {
    AlertRule(u.id.GetOr(r.id), u.accountId.GetOr(r.accountId), u.kind.GetOr(r.kind),
              u.threshold.GetOr(r.threshold), u.operator.GetOr(r.operator),
              u.enabled.GetOr(r.enabled), u.createdAt.GetOr(r.createdAt))
  }

  /** The rule `addRule` creates. */
  function NewRule(d: RuleDraft, id: string, now: int): (r: AlertRule)
    ensures r.id == id && r.createdAt == now
    ensures r.accountId == d.accountId && r.kind == d.kind && r.threshold == d.threshold && r.operator == d.operator
    ensures RuleEnabled(r) <==> d.enabled
  {
    AlertRule(id, d.accountId, d.kind, d.threshold, d.operator, Some(d.enabled), now)
  }

  function RuleIndex(rules: seq<AlertRule>, id: string): Option<nat> {
    FindIndex(rules, (r: AlertRule) => r.id == id)
  }

  function NotificationIndex(ns: seq<Notification>, id: string): Option<nat> {
    FindIndex(ns, (n: Notification) => n.id == id)
  }

  class AlertStore {
    var rules: seq<AlertRule>
    var notifications: seq<Notification>
    var isChecking: bool

    /** At most 100 notifications, and no two unread ones for the same rule and message. */
    ghost predicate Valid()
      reads this
    {
      |notifications| <= MaxNotifications && NoUnreadDuplicates(notifications)
    }

    constructor ()
      ensures Valid()
      ensures rules == [] && notifications == [] && !isChecking
    {
      rules := [];
      notifications := [];
      isChecking := false;
    }

    /** `unreadCount`. */
    function UnreadCount(): (c: nat)
      reads this
      ensures c <= |notifications|
      ensures c == 0 <==> forall i :: 0 <= i < |notifications| ==> notifications[i].read
    {
      UnreadEmpty(notifications);
      |Unread(notifications)|
    }

    /** `getRulesByAccount(accountId)`: the enabled rules of the account, in list order. */
    function GetRulesByAccount(accountId: string): (r: seq<AlertRule>)
      reads this
      ensures forall x :: x in r <==> x in rules && x.accountId == accountId && RuleEnabled(x)
      ensures IsSubsequence(r, rules)
    {
      var p := (x: AlertRule) => x.accountId == accountId && RuleEnabled(x);
      FilterIsSubsequence(p, rules);
      Filter(p, rules)
    }

    /** `loadRules()`, with the stored rules as a parameter. */
    method LoadRules(loaded: seq<AlertRule>)
      requires Valid()
      modifies this
      ensures Valid()
      ensures rules == loaded && notifications == old(notifications) && isChecking == old(isChecking)
    {
      rules := loaded;
    }

    /** `addRule(draft)`: appends one rule with the creation time and a fresh id (in the source
        `generateId()`, here drawn by the caller). */
    method AddRule(draft: RuleDraft, id: string, now: int) returns (rule: AlertRule)
      requires Valid()
      modifies this
      ensures Valid()
      ensures rule == NewRule(draft, id, now)
      ensures rules == old(rules) + [rule]
      ensures notifications == old(notifications) && isChecking == old(isChecking)
    {
      rule := NewRule(draft, id, now);
      rules := rules + [rule];
    }

    /** `updateRule(id, updates)`: merges the patch into the first rule with the id; an unknown id
        is an error and changes nothing. */
    method UpdateRule(id: string, updates: RulePatch) returns (r: Outcome<string>)
      requires Valid()
      modifies this
      ensures Valid()
      ensures notifications == old(notifications) && isChecking == old(isChecking)
      ensures RuleIndex(old(rules), id).None? ==> r == Fail(RuleNotFound) && rules == old(rules)
      ensures RuleIndex(old(rules), id).Some? ==>
        var i := RuleIndex(old(rules), id).value;
        r == Pass && rules == old(rules)[i := PatchedRule(old(rules)[i], updates)]
    {
      var index := RuleIndex(rules, id);
      if index.None? {
        return Fail(RuleNotFound);
      }
      var i := index.value;
      rules := rules[i := PatchedRule(rules[i], updates)];
      r := Pass;
    }

    /** `deleteRule(id)`: removes the first rule with the id; an unknown id is an error and changes
        nothing. */
    method DeleteRule(id: string) returns (r: Outcome<string>)
      requires Valid()
      modifies this
      ensures Valid()
      ensures notifications == old(notifications) && isChecking == old(isChecking)
      ensures RuleIndex(old(rules), id).None? ==> r == Fail(RuleNotFound) && rules == old(rules)
      ensures RuleIndex(old(rules), id).Some? ==>
        var i := RuleIndex(old(rules), id).value;
        r == Pass && rules == old(rules)[..i] + old(rules)[i + 1..]
    {
      var index := RuleIndex(rules, id);
      if index.None? {
        return Fail(RuleNotFound);
      }
      var i := index.value;
      rules := rules[..i] + rules[i + 1..];
      r := Pass;
    }

    /** `checkAlerts()`. Nothing happens without rules; otherwise the enabled rules are checked in
        order against the balances and the list is capped at 100. */
    method CheckAlerts(balances: map<string, Balance>, show: real -> string, newId: nat -> string, now: int)
      requires Valid()
      modifies this
      ensures Valid()
      ensures rules == old(rules)
      ensures notifications == CheckAlertsResult(old(rules), old(notifications), balances, show, newId, now)
      ensures old(rules) == [] ==> isChecking == old(isChecking)
      ensures old(rules) != [] ==> !isChecking
    {
      if |rules| == 0 {
        return;
      }
      isChecking := true;
      var enabledRules := Filter(RuleEnabled, rules);
      var k := 0;
      while k < |enabledRules|
        invariant 0 <= k <= |enabledRules|
        invariant rules == old(rules)
        invariant notifications == CheckEach(enabledRules[..k], old(notifications), balances, show, newId, now)
      {
        var rule := enabledRules[k];
        assert enabledRules[..k + 1][..k] == enabledRules[..k];
        if rule.kind == BalanceRule && rule.accountId in balances {
          var balance := balances[rule.accountId];
          if EvaluateCondition(balance.balance, rule.threshold, rule.operator) {
            var message := AlertMessage(balance, rule, show);
            var existing := FindUnread(notifications, rule.id, message);
            if existing.None? {
              var n := Notification(newId(k), rule.id, rule.accountId, message, LevelOf(balance.balance, rule.threshold), now, false);
              notifications := [n] + notifications;
            }
          }
        }
        k := k + 1;
      }
      assert enabledRules[..k] == enabledRules;
      CheckEachNoDuplicates(enabledRules, old(notifications), balances, show, newId, now);
      CapNoDuplicates(notifications);
      if |notifications| > MaxNotifications {
        notifications := notifications[..MaxNotifications];
      }
      isChecking := false;
    }

    /** `markAsRead(id)`: the first notification with the id is marked read; nothing else changes. */
    method MarkAsRead(id: string)
      requires Valid()
      modifies this
      ensures Valid()
      ensures rules == old(rules) && isChecking == old(isChecking)
      ensures NotificationIndex(old(notifications), id).None? ==> notifications == old(notifications)
      ensures NotificationIndex(old(notifications), id).Some? ==>
        var i := NotificationIndex(old(notifications), id).value;
        notifications == old(notifications)[i := MarkRead(old(notifications)[i])]
    {
      var index := NotificationIndex(notifications, id);
      if index.Some? {
        var i := index.value;
        MarkReadNoDuplicates(notifications, i);
        notifications := notifications[i := MarkRead(notifications[i])];
      }
    }

    /** `markAllAsRead()`: every notification is marked read, so the unread count drops to 0. */
    method MarkAllAsRead()
      requires Valid()
      modifies this
      ensures Valid()
      ensures rules == old(rules) && isChecking == old(isChecking)
      ensures notifications == Map(MarkRead, old(notifications))
      ensures UnreadCount() == 0
    {
      var k := 0;
      while k < |notifications|
        invariant 0 <= k <= |notifications| == |old(notifications)|
        invariant rules == old(rules) && isChecking == old(isChecking)
        invariant forall i :: 0 <= i < k ==> notifications[i] == MarkRead(old(notifications)[i])
        invariant forall i :: k <= i < |notifications| ==> notifications[i] == old(notifications)[i]
      {
        notifications := notifications[k := MarkRead(notifications[k])];
        k := k + 1;
      }
      assert notifications == Map(MarkRead, old(notifications));
    }

    /** `deleteNotification(id)`: removes the first notification with the id; an unknown id
        leaves the list unchanged. */
    method DeleteNotification(id: string)
      requires Valid()
      modifies this
      ensures Valid()
      ensures rules == old(rules) && isChecking == old(isChecking)
      ensures NotificationIndex(old(notifications), id).None? ==> notifications == old(notifications)
      ensures NotificationIndex(old(notifications), id).Some? ==>
        var i := NotificationIndex(old(notifications), id).value;
        notifications == old(notifications)[..i] + old(notifications)[i + 1..]
    {
      var index := NotificationIndex(notifications, id);
      if index.Some? {
        var i := index.value;
        DeleteNoDuplicates(notifications, i);
        notifications := notifications[..i] + notifications[i + 1..];
      }
    }

    /** `clearData()`. */
    method ClearData()
      modifies this
      ensures Valid()
      ensures rules == [] && notifications == [] && isChecking == old(isChecking)
    {
      rules := [];
      notifications := [];
    }
  }
}
