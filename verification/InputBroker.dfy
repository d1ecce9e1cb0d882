/**
 The only path by which automation input reaches the window system.

 `held` is what the operating system believes to be down. The sink accepts or refuses
 each event (`SendInput` reports whether the event was inserted), and a refused event has
 no effect. `history` is the ghost record of everything the claims refer to.
 */
module InputBroker {
  import opened Wrappers

  type Target = nat

  datatype Key =
    | Forward | Backward | Left | Right | Jump | Escape | Interact | Shift | Control
    | F1 | F2 | F3 | F12 | Digit(value: nat)

  datatype MouseButton = LeftButton | RightButton | MiddleButton

  datatype InputAction =
    | KeyDown(key: Key)
    | KeyUp(key: Key)
    | MouseDown(button: MouseButton)
    | MouseUp(button: MouseButton)
    | MouseMoveClient(x: Number, y: Number)
    | MouseWheel(delta: int)

  datatype Status = Ready | PausedForFocus

  datatype BrokerError = WrongForeground | InvalidCoordinates | InvalidKey | Backend | ReleaseFailed

  type Outcome = Option<BrokerError>

  /** What the window system says about the foreground window. */
  type Answer = Result<Option<Target>, ()>

  /** Something that can be down. */
  datatype Input = OfKey(key: Key) | OfButton(button: MouseButton)

  datatype Geometry = Geometry(id: int, clientWidth: nat, clientHeight: nat, minimized: bool)

  datatype Moment =
    | Refreshed(geometry: Geometry)
    | Detected(found: string, confidence: Number, geometry: Geometry)
    | Sent(action: InputAction, foreground: Option<Target>)

  predicate IsPress(a: InputAction) {
    a.KeyDown? || a.MouseDown?
  }

  function CheckAction(a: InputAction): Outcome {
    match a
    case MouseMoveClient(x, y) => if InUnit(x) && InUnit(y) then None else Some(InvalidCoordinates)
    case KeyDown(Digit(v)) => if v > 9 then Some(InvalidKey) else None
    case KeyUp(Digit(v)) => if v > 9 then Some(InvalidKey) else None
    case _ => None
  }

  /** What keeps a valid action from the target, if anything: the foreground, a pause, or the sink. */
  function Refusal(answer: Answer, target: Target, status: Status, accepted: bool): Outcome {
    if answer.Err? then Some(Backend)
    else if answer != Ok(Some(target)) || status == PausedForFocus then Some(WrongForeground)
    else if !accepted then Some(Backend) else None
  }

  /** The effect of an accepted event on what is down. */
  function Apply(held: set<Input>, a: InputAction): set<Input> {
    match a
    case KeyDown(k) => held + {OfKey(k)}
    case KeyUp(k) => held - {OfKey(k)}
    case MouseDown(b) => held + {OfButton(b)}
    case MouseUp(b) => held - {OfButton(b)}
    case _ => held
  }

  function Tracked(keys: set<Key>, buttons: set<MouseButton>): set<Input> {
    (set k | k in keys :: OfKey(k)) + (set b | b in buttons :: OfButton(b))
  }

  /** One key or button fewer to release. */
  lemma OneKeyLess(all: set<Key>, left: set<Key>, k: Key)
    requires k in left && left <= all
    ensures Tracked(all - (left - {k}), {}) == Tracked(all - left, {}) + {OfKey(k)}
    ensures OfKey(k) in Tracked(all, {}) - Tracked(all - left, {})
  {
  }

  lemma OneButtonLess(all: set<MouseButton>, left: set<MouseButton>, b: MouseButton)
    requires b in left && left <= all
    ensures Tracked({}, all - (left - {b})) == Tracked({}, all - left) + {OfButton(b)}
    ensures OfButton(b) in Tracked({}, all) - Tracked({}, all - left)
  {
  }

  /** What is down after replaying the sent events. */
  ghost function Replay(history: seq<Moment>): set<Input> {
    if history == [] then {}
    else
      var held := Replay(history[..|history| - 1]);
      if history[|history| - 1].Sent? then Apply(held, history[|history| - 1].action) else held
  }

  lemma ReplaySnoc(history: seq<Moment>, m: Moment)
    ensures Replay(history + [m]) == if m.Sent? then Apply(Replay(history), m.action) else Replay(history)
  {
    assert (history + [m])[..|history|] == history;
  }

  /** Nothing but releases was sent between two histories. */
  ghost predicate OnlyReleases(before: seq<Moment>, after: seq<Moment>) {
    && before <= after
    && forall i :: |before| <= i < |after| ==> after[i].Sent? && (after[i].action.KeyUp? || after[i].action.MouseUp?)
  }

  /** Releases never press anything. */
  lemma {:induction false} ReleasesOnlyShrink(before: seq<Moment>, after: seq<Moment>)
    requires OnlyReleases(before, after)
    ensures Replay(after) <= Replay(before)
    decreases |after|
  {
    if before != after {
      ReleasesOnlyShrink(before, after[..|after| - 1]);
    }
  }

  predicate Concerns(m: Moment, i: Input) {
    m.Sent? && (Apply({}, m.action) == {i} || Apply({i}, m.action) == {})
  }

  /** An input is down exactly when the last event sent about it was a press. */
  lemma {:induction false} HeldIffLastWasPress(history: seq<Moment>, i: Input)
    ensures i in Replay(history) <==>
      exists p :: 0 <= p < |history| && history[p].Sent? && Apply({}, history[p].action) == {i}
               && forall m :: p < m < |history| ==> !Concerns(history[m], i)
  {
    if history != [] {
      var n := |history| - 1;
      HeldIffLastWasPress(history[..n], i);
      var last := history[n];
      if i in Replay(history) && !(last.Sent? && Apply({}, last.action) == {i}) {
        assert i in Replay(history[..n]);
        var p :| 0 <= p < n && history[..n][p].Sent? && Apply({}, history[..n][p].action) == {i}
               && forall m :: p < m < n ==> !Concerns(history[..n][m], i);
        assert forall m :: p < m < n ==> history[..n][m] == history[m];
        assert history[p].Sent? && Apply({}, history[p].action) == {i};
      }
    }
  }

  class Broker {
    const target: Target
    /** Whether the sink takes the release of an input in the n-th call of `ReleaseAll`. */
    const releases: (nat, Input) -> bool
    var batches: nat
    var pressedKeys: set<Key>
    var pressedButtons: set<MouseButton>
    var status: Status
    ghost var held: set<Input>
    /** Inputs whose release failed and that are still down, although no longer tracked. */
    ghost var orphans: set<Input>
    /** How many releases the sink has refused to `ReleaseAll`. */
    ghost var refusals: nat
    ghost var history: seq<Moment>

    /** What is down is what is tracked or was orphaned; a paused broker tracks nothing. */
    ghost predicate Valid()
      reads this
    {
      && held == Replay(history)
      && held == Tracked(pressedKeys, pressedButtons) + orphans
      && (status == PausedForFocus ==> Clean())
      && (refusals == 0 ==> orphans == {})
    }

    predicate Clean()
      reads this
    {
      pressedKeys == {} && pressedButtons == {}
    }

    constructor (target: Target, releases: (nat, Input) -> bool)
      ensures this.target == target && this.releases == releases && batches == 0
      ensures Valid() && Clean() && orphans == {} && history == [] && status == Ready
    {
      this.target, this.releases, batches := target, releases, 0;
      pressedKeys, pressedButtons, status := {}, {}, Ready;
      held, orphans, refusals, history := {}, {}, 0, [];
    }

    /** Records something the layers above observed. */
    ghost method Observe(m: Moment)
      requires Valid() && !m.Sent?
      modifies `history
      ensures Valid() && history == old(history) + [m]
    {
      ReplaySnoc(history, m);
      history := history + [m];
    }

    /** The sink: an accepted event takes effect, a refused one does not. */
    method Send(a: InputAction, ghost foreground: Option<Target>, accepted: bool)
      requires held == Replay(history)
      modifies `held, `history
      ensures held == Replay(history)
      ensures held == (if accepted then Apply(old(held), a) else old(held))
      ensures history == (if accepted then old(history) + [Sent(a, foreground)] else old(history))
    {
      if accepted {
        ReplaySnoc(history, Sent(a, foreground));
        held := Apply(held, a);
        history := history + [Sent(a, foreground)];
      }
    }

    /** The check of the answer about the foreground: it has to be the exact target. */
    method EnsureForeground(answer: Answer) returns (r: Outcome)
      ensures r.None? <==> answer == Ok(Some(target))
      ensures r.Some? ==> r == Some(if answer.Err? then Backend else WrongForeground)
    {
      if answer == Ok(Some(target)) {
        return None;
      }
      return Some(if answer.Err? then Backend else WrongForeground);
    }

    /** A paused broker becomes ready again exactly when the target answers as the foreground. */
    method ResumeAfterFocusCheck(answer: Answer) returns (r: Outcome)
      requires Valid()
      modifies `status
      ensures Valid()
      ensures r.None? <==> answer == Ok(Some(target))
      ensures r.Some? ==> r == Some(if answer.Err? then Backend else WrongForeground)
      ensures status == if answer == Ok(Some(target)) then Ready else old(status)
    {
      r := EnsureForeground(answer);
      if r.None? {
        status := Ready;
      }
    }

    /** The inputs of a batch whose release is refused. */
    ghost function Refused(batch: set<Input>): set<Input>
      reads `batches
    {
      set i <- batch | !releases(batches, i)
    }

    lemma RefusedMore(batch: set<Input>, i: Input)
      ensures Refused(batch + {i}) == Refused(batch) + if releases(batches, i) then {} else {i}
    {
    }

    /** Releasing keys and buttons in turn is releasing all of them. */
    lemma TrackedParts(keys: set<Key>, buttons: set<MouseButton>, h: set<Input>)
      ensures var k, b, all := Tracked(keys, {}), Tracked({}, buttons), Tracked(keys, buttons);
        && k !! b && k <= all && b <= all && (Refused(all) == {} <==> Refused(k) == {} && Refused(b) == {})
        && h - (k - Refused(k)) - (b - Refused(b)) == h - (all - Refused(all))
    {
      var k, b := Tracked(keys, {}), Tracked({}, buttons);
      assert Tracked(keys, buttons) == k + b;
      assert Refused(k + b) == Refused(k) + Refused(b);
    }

    /** Sends one release of a batch. */
    method ReleaseOne(i: Input) returns (accepted: bool)
      requires held == Replay(history)
      modifies `held, `refusals, `history
      ensures accepted == releases(batches, i) && held == Replay(history)
      ensures held == (if accepted then old(held) - {i} else old(held))
      ensures refusals == old(refusals) + if accepted then 0 else 1
      ensures OnlyReleases(old(history), history)
    {
      accepted := releases(batches, i);
      Send(if i.OfKey? then KeyUp(i.key) else MouseUp(i.button), None, accepted);
      refusals := refusals + if accepted then 0 else 1;
    }

    /** A batch of releases brings up exactly what the sink takes. */
    twostate predicate Released(batch: set<Input>, failed: bool)
      reads this
    {
      && held == old(held) - (batch - Refused(batch)) == Replay(history)
      && OnlyReleases(old(history), history)
      && (batch == {} ==> history == old(history))
      && old(refusals) <= refusals && (failed <==> old(refusals) < refusals) && (failed <==> Refused(batch) != {})
    }

    method ReleaseKeys(keys: set<Key>) returns (failed: bool)
      requires held == Replay(history) && Tracked(keys, {}) <= held
      modifies `held, `refusals, `history
      ensures Released(Tracked(keys, {}), failed)
    {
      var left := keys;
      failed := false;
      while left != {}
        invariant left <= keys && Released(Tracked(keys - left, {}), failed)
        decreases left
      {
        var k :| k in left;
        OneKeyLess(keys, left, k);
        RefusedMore(Tracked(keys - left, {}), OfKey(k));
        var accepted := ReleaseOne(OfKey(k));
        failed := failed || !accepted;
        left := left - {k};
      }
      assert keys - left == keys;
    }

    method ReleaseButtons(buttons: set<MouseButton>) returns (failed: bool)
      requires held == Replay(history) && Tracked({}, buttons) <= held
      modifies `held, `refusals, `history
      ensures Released(Tracked({}, buttons), failed)
    {
      var left := buttons;
      failed := false;
      while left != {}
        invariant left <= buttons && Released(Tracked({}, buttons - left), failed)
        decreases left
      {
        var b :| b in left;
        OneButtonLess(buttons, left, b);
        RefusedMore(Tracked({}, buttons - left), OfButton(b));
        var accepted := ReleaseOne(OfButton(b));
        failed := failed || !accepted;
        left := left - {b};
      }
      assert buttons - left == buttons;
    }

    /** Releases everything tracked and forgets it. Inputs whose release fails become orphans;
        if every release is accepted, nothing tracked stays down. */
    method ReleaseAll() returns (r: Outcome)
      requires Valid()
      modifies `pressedKeys, `pressedButtons, `held, `orphans, `refusals, `history, `batches
      ensures Valid() && Clean() && held == orphans && batches == old(batches) + 1
      ensures r.None? <==> refusals == old(refusals)
      ensures old(refusals) <= refusals
      ensures OnlyReleases(old(history), history)
      ensures var tracked := Tracked(old(pressedKeys), old(pressedButtons));
        && held == old(held) - (tracked - old(Refused(tracked)))
        && r == if old(Refused(tracked)) == {} then None else Some(ReleaseFailed)
      ensures old(Clean()) ==> r.None? && history == old(history)
    {
      var keys, buttons := pressedKeys, pressedButtons;
      pressedKeys, pressedButtons := {}, {};
      TrackedParts(keys, buttons, held);
      assert Tracked({}, {}) == {};
      var keysFailed := ReleaseKeys(keys);
      var buttonsFailed := ReleaseButtons(buttons);
      orphans, batches := held, batches + 1;
      r := if keysFailed || buttonsFailed then Some(ReleaseFailed) else None;
    }

    method Cancel() returns (r: Outcome)
      requires Valid()
      modifies this
      ensures Valid() && Clean() && status == PausedForFocus
      ensures OnlyReleases(old(history), history) && (old(Clean()) ==> history == old(history))
      ensures r.None? <==> refusals == old(refusals)
      ensures old(refusals) <= refusals
    {
      r := ReleaseAll();
      status := PausedForFocus;
    }

    /** Sends one action if the exact target is in the foreground and the broker is ready.
        Any failure releases everything tracked and pauses the broker. */
    method Dispatch(a: InputAction, answer: Answer, accepted: bool) returns (r: Outcome)
      requires Valid()
      modifies this
      ensures Valid() && old(refusals) <= refusals
      ensures CheckAction(a).Some? ==>
        r == CheckAction(a) && history == old(history) && held == old(held) && status == old(status)
      ensures CheckAction(a).None? ==> r == Refusal(answer, target, old(status), accepted)
      ensures r.None? ==>
        && history == old(history) + [Sent(a, Some(target))] && held == Apply(old(held), a)
        && Tracked(pressedKeys, pressedButtons) == Apply(Tracked(old(pressedKeys), old(pressedButtons)), a)
        && status == Ready == old(status)
      ensures r.Some? && CheckAction(a).None? ==>
        Clean() && status == PausedForFocus && OnlyReleases(old(history), history)
      ensures r.Some? && old(Clean()) ==> history == old(history)
    {
      var invalid := CheckAction(a);
      if invalid.Some? {
        return invalid;
      }
      r := EnsureForeground(answer);
      if r.Some? {
        var _ := Cancel();
        return;
      }
      if status == PausedForFocus {
        return Some(WrongForeground);
      }
      ghost var tracked := Tracked(pressedKeys, pressedButtons);
      Send(a, answer.value, accepted);
      if !accepted {
        var _ := Cancel();
        return Some(Backend);
      }
      match a {
        case KeyDown(key) => pressedKeys := pressedKeys + {key};
        case KeyUp(key) => pressedKeys := pressedKeys - {key};
        case MouseDown(button) => pressedButtons := pressedButtons + {button};
        case MouseUp(button) => pressedButtons := pressedButtons - {button};
        case _ =>
      }
      orphans := orphans * held;
      assert Tracked(pressedKeys, pressedButtons) == Apply(tracked, a);
      return None;
    }
  }
}
