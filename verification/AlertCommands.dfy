/** Command failure alerts: one for each failed target, in the first frame that shows the failure. */
module AlertCommands {
  import opened Domain
  import opened TrackerSpec
  import opened Wire
  import opened AlertSpec
  import opened AlertHistory

  // ---- the key --------------------------------------------------------------

  ghost predicate ColonFree(s: string) { ':' !in s }

  lemma {:induction false} KeyIsInjective(c1: CommandId, r1: RobotId, c2: CommandId, r2: RobotId)
    requires ColonFree(r1) && ColonFree(r2) && Key(c1, r1) == Key(c2, r2)
    ensures c1 == c2 && r1 == r2
  {
    var k1, k2 := Key(c1, r1), Key(c2, r2);
    assert k1[|c1|] == ':' && k2[|c2|] == ':';
    assert forall i | |c1| < i < |k1| :: k1[i] == r1[i - |c1| - 1];
    assert forall i | |c2| < i < |k2| :: k2[i] == r2[i - |c2| - 1];
    assert |c1| == |c2|;
    assert k1[..|c1|] == c1 && k2[..|c2|] == c2;
    assert k1[|c1| + 1..] == r1 && k2[|c2| + 1..] == r2;
  }

  /** No other command and no colon-free robot share the key of this robot for any command. */
  ghost predicate KeyIdentifies(robot: RobotId) {
    forall c1, c2, r2 | ColonFree(r2) && Key(c1, robot) == Key(c2, r2) :: c1 == c2 && robot == r2
  }

  /** The key identifies a robot's target, among colon-free robots, if and only if the id itself has no colon. */
  lemma {:induction false} KeyIdentifiesIffColonFree(robot: RobotId)
    ensures KeyIdentifies(robot) <==> ColonFree(robot)
  {
    if ColonFree(robot) {
      forall c1, c2, r2 | ColonFree(r2) && Key(c1, robot) == Key(c2, r2) ensures c1 == c2 && robot == r2 {
        KeyIsInjective(c1, robot, c2, r2);
      }
    } else {
      var i := LastColon(robot);
      var head, tail := robot[..i], robot[i + 1..];
      assert robot == head + ":" + tail;
      assert Key("", robot) == Key(":" + head, tail) by {
        assert "" + ":" + (head + ":" + tail) == ":" + head + ":" + tail;
      }
      assert !KeyIdentifies(robot);
    }
  }

  lemma {:induction false} LastColon(s: string) returns (i: nat)
    requires !ColonFree(s)
    ensures i < |s| && s[i] == ':' && ColonFree(s[i + 1..])
  {
    i := |s| - 1;
    while s[i] != ':'
      invariant 0 <= i < |s| && ColonFree(s[i + 1..])
      invariant exists j :: 0 <= j <= i && s[j] == ':'
      decreases i
    {
      assert s[i..] == [s[i]] + s[i + 1..];
      i := i - 1;
    }
  }

  // ---- first failures -------------------------------------------------------

  predicate Fails(item: Item) { item.TargetSeen? && item.status.state in {Rejected, Expired, RobotOffline} }

  /** Both show a failure, with the same key, or of the same target of the same command. */
  predicate SameFailure(a: Item, b: Item, byKey: bool) {
    Fails(a) && Fails(b)
    && if byKey then Key(a.commandId, a.status.robotId) == Key(b.commandId, b.status.robotId)
       else a.commandId == b.commandId && a.status.robotId == b.status.robotId
  }

  ghost predicate IsFirst(items: seq<Item>, k: int, byKey: bool) {
    && 0 <= k < |items| && Fails(items[k])
    && forall j | 0 <= j < k :: !SameFailure(items[j], items[k], byKey)
  }

  /** The failures of a run, each at its first showing. */
  ghost function FirstFailures(items: seq<Item>, byKey: bool): seq<Item> {
    if items == [] then []
    else
      var n := |items| - 1;
      FirstFailures(items[..n], byKey) + if IsFirst(items, n, byKey) then [items[n]] else []
  }

  /** FirstFailures holds exactly the first showings, and no failure twice. */
  lemma {:induction false} FirstFailuresAreFirst(items: seq<Item>, byKey: bool)
    ensures forall x | x in FirstFailures(items, byKey) :: exists k :: IsFirst(items, k, byKey) && items[k] == x
    ensures forall k | IsFirst(items, k, byKey) :: items[k] in FirstFailures(items, byKey)
    ensures forall i, j | 0 <= i < j < |FirstFailures(items, byKey)| ::
      !SameFailure(FirstFailures(items, byKey)[i], FirstFailures(items, byKey)[j], byKey)
    decreases |items|
  {
    hide SameFailure, Fails;
    if items != [] {
      var n := |items| - 1;
      var pre, was := items[..n], FirstFailures(items[..n], byKey);
      FirstFailuresAreFirst(pre, byKey);
      assert forall k :: IsFirst(pre, k, byKey) ==> IsFirst(items, k, byKey) && items[k] == pre[k];
      assert forall k :: IsFirst(items, k, byKey) && k < n ==> IsFirst(pre, k, byKey);
      forall x | x in FirstFailures(items, byKey) ensures exists k :: IsFirst(items, k, byKey) && items[k] == x {
        if x in was {
          var k :| IsFirst(pre, k, byKey) && pre[k] == x;
          assert IsFirst(items, k, byKey);
        } else {
          assert IsFirst(items, n, byKey) && items[n] == x;
        }
      }
      if IsFirst(items, n, byKey) {
        forall i | 0 <= i < |was| ensures !SameFailure(was[i], items[n], byKey) {
          assert was[i] in was;
          var k :| IsFirst(pre, k, byKey) && pre[k] == was[i];
          assert items[k] == was[i];
        }
      }
    }
  }

  lemma {:induction false} FirstFailuresFail(items: seq<Item>, byKey: bool)
    ensures forall x | x in FirstFailures(items, byKey) :: Fails(x)
    decreases |items|
  {
    if items != [] { FirstFailuresFail(items[..|items| - 1], byKey); }
  }

  // ---- the alerts -----------------------------------------------------------

  datatype Failure = Failure(severity: Severity, robotId: RobotId, ts: int, message: Message)

  /** The command alerts among the alerts, without ids. */
  function CommandAlerts(out: seq<Alert>): seq<Failure> {
    if out == [] then []
    else
      var a := out[|out| - 1];
      CommandAlerts(out[..|out| - 1])
      + if a.kind == CommandAlert then [Failure(a.severity, a.robotId, a.ts, a.message)] else []
  }

  function AlertFor(item: Item): Failure
    requires Fails(item)
  {
    Failure(Warn, item.status.robotId, item.at, CommandFailed(item.status.state, item.status.detail))
  }

  ghost function AlertsFor(xs: seq<Item>): seq<Failure>
    requires forall x | x in xs :: Fails(x)
  {
    if xs == [] then [] else AlertsFor(xs[..|xs| - 1]) + [AlertFor(xs[|xs| - 1])]
  }

  lemma {:induction false} CommandAlertsAppend(a: seq<Alert>, b: seq<Alert>)
    ensures CommandAlerts(a + b) == CommandAlerts(a) + CommandAlerts(b)
    decreases |b|
  {
    if b == [] {
      assert a + b == a;
    } else {
      assert (a + b)[..|a + b| - 1] == a + b[..|b| - 1];
      CommandAlertsAppend(a, b[..|b| - 1]);
    }
  }

  lemma {:induction false} RobotsRaiseNoCommandAlert(m: Memory, inside: Fence, r: RobotState, at: int)
    ensures CommandAlerts(See(m, inside, RobotSeen(r, at)).1) == []
    ensures See(m, inside, RobotSeen(r, at)).0.seen == m.seen
  {
    var (m1, out1) := SeeLink(m, r.telemetry.robotId, r.linkStatus, at);
    var (m2, out2) := SeeFence(m1, inside, r, at);
    assert out1 != [] ==> out1[..0] == [];
    assert out2 != [] ==> out2[..0] == [];
    CommandAlertsAppend(out1, out2);
  }

  lemma {:induction false} TargetAlert(m: Memory, inside: Fence, item: Item)
    requires item.TargetSeen?
    ensures var r, key := See(m, inside, item), Key(item.commandId, item.status.robotId);
      && CommandAlerts(r.1) == (if Fails(item) && key !in m.seen then [AlertFor(item)] else [])
      && r.0.seen == if Fails(item) then m.seen + {key} else m.seen
  {
    var out := See(m, inside, item).1;
    assert out != [] ==> out[..0] == [];
  }

  /** The engine remembers exactly the keys of the failures it has been shown. */
  ghost predicate RemembersFailures(seen: set<string>, items: seq<Item>) {
    && (forall i | 0 <= i < |items| && Fails(items[i]) :: Key(items[i].commandId, items[i].status.robotId) in seen)
    && forall key | key in seen ::
         exists i :: 0 <= i < |items| && Fails(items[i]) && Key(items[i].commandId, items[i].status.robotId) == key
  }

  lemma {:induction false} SeenIffNotFirst(seen: set<string>, items: seq<Item>)
    requires items != [] && Fails(items[|items| - 1])
    requires RemembersFailures(seen, items[..|items| - 1])
    ensures var last := items[|items| - 1];
      Key(last.commandId, last.status.robotId) !in seen <==> IsFirst(items, |items| - 1, true)
  {
    hide Key;
    var n := |items| - 1;
    var pre, last := items[..n], items[n];
    var key := Key(last.commandId, last.status.robotId);
    if key in seen {
      var i :| 0 <= i < |pre| && Fails(pre[i]) && Key(pre[i].commandId, pre[i].status.robotId) == key;
      assert SameFailure(items[i], last, true);
    } else {
      forall j | 0 <= j < n ensures !SameFailure(items[j], last, true) {
        assert pre[j] == items[j];
      }
    }
  }

  /**
   Each key of a target shown REJECTED, EXPIRED or ROBOT_OFFLINE raises one alert, at its first showing and with what it
   showed there: the command alerts of any run are those of its first failures by key.
   */
  lemma {:induction false} FailuresAlertOnce(inside: Fence, items: seq<Item>)
    ensures forall x | x in FirstFailures(items, true) :: Fails(x)
    ensures CommandAlerts(Alerts(inside, items)) == AlertsFor(FirstFailures(items, true))
    ensures RemembersFailures(SeeAll(FRESH, inside, items).0.seen, items)
    decreases |items|
  {
    if items != [] {
      var n := |items| - 1;
      var pre, last := items[..n], items[n];
      FailuresAlertOnce(inside, pre);
      var before := SeeAll(FRESH, inside, pre);
      var after := See(before.0, inside, last);
      CommandAlertsAppend(before.1, after.1);
      if last.RobotSeen? {
        RobotsRaiseNoCommandAlert(before.0, inside, last.state, last.at);
        assert CommandAlerts(before.1) + [] == CommandAlerts(before.1);
      } else {
        TargetAlert(before.0, inside, last);
        if Fails(last) { SeenIffNotFirst(before.0.seen, items); }
      }
      RemembersNext(before.0.seen, items);
      FirstNext(items);
    }
  }

  lemma {:induction false} RemembersNext(seen: set<string>, items: seq<Item>)
    requires items != [] && RemembersFailures(seen, items[..|items| - 1])
    ensures var last := items[|items| - 1];
      RemembersFailures(if Fails(last) then seen + {Key(last.commandId, last.status.robotId)} else seen, items)
  {
    var n := |items| - 1;
    var pre, last := items[..n], items[n];
    assert forall i | 0 <= i < n :: pre[i] == items[i];
    var later := if Fails(last) then seen + {Key(last.commandId, last.status.robotId)} else seen;
    forall key | key in later
      ensures exists i :: 0 <= i < |items| && Fails(items[i]) && Key(items[i].commandId, items[i].status.robotId) == key
    {
      if key in seen {
        var i :| 0 <= i < |pre| && Fails(pre[i]) && Key(pre[i].commandId, pre[i].status.robotId) == key;
        assert Fails(items[i]) && Key(items[i].commandId, items[i].status.robotId) == key;
      } else {
        assert Key(items[n].commandId, items[n].status.robotId) == key;
      }
    }
  }

  lemma {:induction false} FirstNext(items: seq<Item>)
    requires items != [] && forall x | x in FirstFailures(items[..|items| - 1], true) :: Fails(x)
    ensures forall x | x in FirstFailures(items, true) :: Fails(x)
    ensures AlertsFor(FirstFailures(items, true)) == AlertsFor(FirstFailures(items[..|items| - 1], true)) +
      if IsFirst(items, |items| - 1, true) then [AlertFor(items[|items| - 1])] else []
  {
    var n := |items| - 1;
    var was := FirstFailures(items[..n], true);
    if IsFirst(items, n, true) {
      assert (was + [items[n]])[..|was|] == was;
    } else {
      assert FirstFailures(items, true) == was;
    }
  }

  // ---- one alert for each target --------------------------------------------

  /** No target fails for the first time under a key that another failed target has used. */
  ghost predicate NoneShadowed(items: seq<Item>) {
    forall k | IsFirst(items, k, false) :: IsFirst(items, k, true)
  }

  lemma {:induction false} FirstByKeyIsFirst(items: seq<Item>, k: int)
    requires IsFirst(items, k, true)
    ensures IsFirst(items, k, false)
  {
    hide Key;
    forall j | 0 <= j < k ensures !SameFailure(items[j], items[k], false) {
      assert !SameFailure(items[j], items[k], true);
    }
  }

  lemma {:induction false} ShadowsCost(items: seq<Item>)
    ensures |FirstFailures(items, true)| <= |FirstFailures(items, false)|
    ensures NoneShadowed(items) ==> FirstFailures(items, true) == FirstFailures(items, false)
    ensures !NoneShadowed(items) ==> |FirstFailures(items, true)| < |FirstFailures(items, false)|
    decreases |items|
  {
    hide SameFailure;
    if items != [] {
      var n := |items| - 1;
      var pre := items[..n];
      ShadowsCost(pre);
      assert forall k, byKey :: IsFirst(pre, k, byKey) <==> IsFirst(items, k, byKey) && k < n;
      if IsFirst(items, n, true) { FirstByKeyIsFirst(items, n); }
      assert NoneShadowed(items) <==> NoneShadowed(pre) && (IsFirst(items, n, false) ==> IsFirst(items, n, true));
    }
  }

  lemma {:induction false} AlertsForLength(xs: seq<Item>)
    requires forall x | x in xs :: Fails(x)
    ensures |AlertsFor(xs)| == |xs|
    decreases |xs|
  {
    if xs != [] { AlertsForLength(xs[..|xs| - 1]); }
  }

  /** Every failed target raises exactly one alert, at its first failing frame, if and only if none is shadowed. */
  lemma {:induction false} EachTargetAlertsIff(inside: Fence, items: seq<Item>)
    ensures forall x | x in FirstFailures(items, false) :: Fails(x)
    ensures CommandAlerts(Alerts(inside, items)) == AlertsFor(FirstFailures(items, false)) <==> NoneShadowed(items)
  {
    hide NoneShadowed, Alerts, CommandAlerts;
    FailuresAlertOnce(inside, items);
    ShadowsCost(items);
    FirstFailuresFail(items, false);
    AlertsForLength(FirstFailures(items, true));
    AlertsForLength(FirstFailures(items, false));
  }

  /** None is shadowed when robot ids have no colon. */
  lemma {:induction false} ColonFreeNoneShadowed(items: seq<Item>)
    requires forall i | 0 <= i < |items| && items[i].TargetSeen? :: ColonFree(items[i].status.robotId)
    ensures NoneShadowed(items)
  {
    hide Key;
    forall k | IsFirst(items, k, false) ensures IsFirst(items, k, true) {
      forall j | 0 <= j < k ensures !SameFailure(items[j], items[k], true) {
        var a, b := items[j], items[k];
        assert !SameFailure(a, b, false);
        if SameFailure(a, b, true) {
          KeyIsInjective(a.commandId, a.status.robotId, b.commandId, b.status.robotId);
        }
      }
    }
  }
}
