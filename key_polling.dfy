/** Key polling: turns the key-pressed and key-released events of one bound
    scene into a set of keys that can be queried at any time. */
module Controls {
  import opened Wrappers

  /** The key codes the game reads, and every other key. */
  datatype KeyCode = W | A | S | D | Other(code: nat)

  /** The identity of a JavaFX scene. */
  datatype Scene = Scene(id: nat)

  datatype KeyEvent = Pressed(target: Scene, code: KeyCode) | Released(target: Scene, code: KeyCode)

  /** The poller's fields: the keys down, the bound scene (`None` for null),
      and the scenes whose key handlers currently feed this poller. */
  datatype Poller = Poller(keys: set<KeyCode>, scene: Option<Scene>, handlers: set<Scene>)

  /** At most one scene is polled: exactly the bound one carries handlers. */
  predicate Bound(p: Poller)
  {
    p.handlers == if p.scene.Some? then {p.scene.value} else {}
  }

  /** The poller before any scene is bound. */
  const Unbound: Poller := Poller({}, None, {})

  /** What `pollScene(scene)` leaves behind: the new fields and whether it
      returned normally or threw. */
  datatype Polled = Polled(state: Poller, outcome: Outcome)

  /** `pollScene(scene)`: rejects null before touching anything; otherwise
      clears the keys, detaches the handlers from the previous scene and
      attaches fresh ones to the new scene. */
  function Bind(p: Poller, scene: Option<Scene>): Polled
  {
    if scene.None? then Polled(p, Fail(IllegalArgumentException("The scene cannot be null!")))
    else
      var detached := if p.scene.Some? then p.handlers - {p.scene.value} else p.handlers;
      Polled(Poller({}, scene, detached + {scene.value}), Pass)
  }

  /** A key event reaches the poller only through a scene carrying its
      handlers: a press adds its key, a release removes it. */
  function Deliver(p: Poller, e: KeyEvent): Poller
  {
    if e.target !in p.handlers then p
    else if e.Pressed? then p.(keys := p.keys + {e.code})
    else p.(keys := p.keys - {e.code})
  }

  /** Events delivered in order. */
  function DeliverAll(p: Poller, es: seq<KeyEvent>): Poller
  {
    if es == [] then p else Deliver(DeliverAll(p, es[..|es| - 1]), es[|es| - 1])
  }

  /** The latest event about key `k` among those reaching scenes in `hs`:
      `Some(true)` for a press, `Some(false)` for a release. */
  function LatestFor(es: seq<KeyEvent>, k: KeyCode, hs: set<Scene>): Option<bool>
  {
    if es == [] then None
    else if es[|es| - 1].target in hs && es[|es| - 1].code == k then Some(es[|es| - 1].Pressed?)
    else LatestFor(es[..|es| - 1], k, hs)
  }

  /** A null scene is rejected with IllegalArgumentException and the poller
      is left as it was. */
  lemma NullSceneRejected(p: Poller)
    ensures Bind(p, None).outcome.Fail?
    ensures Bind(p, None).outcome.error.IllegalArgumentException?
    ensures Bind(p, None).state == p
  {
  }

  /** Binding a scene leaves no key down, that scene bound, and only that
      scene carrying handlers. */
  lemma BindResets(p: Poller, s: Scene)
    requires Bound(p)
    ensures Bind(p, Some(s)).outcome == Pass
    ensures Bind(p, Some(s)).state.keys == {}
    ensures Bind(p, Some(s)).state.scene == Some(s)
    ensures Bind(p, Some(s)).state.handlers == {s}
    ensures Bound(Bind(p, Some(s)).state)
  {
  }

  /** On the bound scene a press makes its key down and a release makes it
      up; other keys are untouched; pressing twice is pressing once; and
      releasing a key that is not down changes nothing. */
  lemma BoundSceneEvents(p: Poller, s: Scene, k: KeyCode, j: KeyCode)
    requires Bound(p) && p.scene == Some(s)
    ensures k in Deliver(p, Pressed(s, k)).keys
    ensures k !in Deliver(p, Released(s, k)).keys
    ensures j != k ==> (j in Deliver(p, Pressed(s, k)).keys <==> j in p.keys)
    ensures j != k ==> (j in Deliver(p, Released(s, k)).keys <==> j in p.keys)
    ensures Deliver(Deliver(p, Pressed(s, k)), Pressed(s, k)) == Deliver(p, Pressed(s, k))
    ensures k !in p.keys ==> Deliver(p, Released(s, k)) == p
  {
  }

  /** Polling completeness: after any events, a key is down exactly when the
      latest event about it on a handled scene was a press, or, with no such
      event, when it was down before. */
  lemma {:induction false} DownIffLatestPress(p: Poller, es: seq<KeyEvent>, k: KeyCode)
    ensures DeliverAll(p, es).handlers == p.handlers
    ensures k in DeliverAll(p, es).keys <==>
      match LatestFor(es, k, p.handlers)
      case None => k in p.keys
      case Some(pressed) => pressed
  {
    if es != [] {
      DownIffLatestPress(p, es[..|es| - 1], k);
    }
  }

  /** Events on scenes that carry none of the poller's handlers change
      nothing at all. */
  lemma {:induction false} UnhandledScenesIgnored(p: Poller, es: seq<KeyEvent>)
    requires forall i :: 0 <= i < |es| ==> es[i].target !in p.handlers
    ensures DeliverAll(p, es) == p
  {
    if es != [] {
      UnhandledScenesIgnored(p, es[..|es| - 1]);
    }
  }

  /** After rebinding from `previous` to another scene, events on it no longer
      reach the poller. */
  lemma {:induction false} PreviousSceneDetached(p: Poller, previous: Scene, s: Scene, es: seq<KeyEvent>)
    requires Bound(p) && p.scene == Some(previous) && previous != s
    requires forall i :: 0 <= i < |es| ==> es[i].target == previous
    ensures DeliverAll(Bind(p, Some(s)).state, es) == Bind(p, Some(s)).state
  {
    UnhandledScenesIgnored(Bind(p, Some(s)).state, es);
  }

  /** The poller object.  The Java class keeps these fields static; a
      single instance stands for them here. */
  class KeyPolling {
    var keysCurrentlyDown: set<KeyCode>
    var scene: Option<Scene>
    var handlers: set<Scene>

    function State(): Poller
      reads this
    {
      Poller(keysCurrentlyDown, scene, handlers)
    }

    /** One scene polled at a time: exactly the bound scene carries handlers. */
    ghost predicate Valid()
      reads this
    {
      Bound(State())
    }

    constructor ()
      ensures State() == Unbound
      ensures Valid()
    {
      keysCurrentlyDown, scene, handlers := {}, None, {};
    }

    /** `pollScene(scene)`; `outcome` is `Fail` where Java throws. */
    method PollScene(newScene: Option<Scene>) returns (outcome: Outcome)
      modifies this
      ensures Polled(State(), outcome) == Bind(old(State()), newScene)
      ensures old(Valid()) ==> Valid()
    {
      if newScene.None? {
        return Fail(IllegalArgumentException("The scene cannot be null!"));
      }
      ClearKeys();
      RemoveCurrentKeyHandlers();
      SetScene(newScene.value);
      outcome := Pass;
    }

    /** `isDown(keyCode)`: a query that changes nothing. */
    method IsDown(keyCode: KeyCode) returns (down: bool)
      ensures down <==> keyCode in keysCurrentlyDown
    {
      down := keyCode in keysCurrentlyDown;
    }

    method ClearKeys()
      modifies this
      ensures State() == old(State()).(keys := {})
    {
      keysCurrentlyDown := {};
    }

    method RemoveCurrentKeyHandlers()
      modifies this
      ensures keysCurrentlyDown == old(keysCurrentlyDown) && scene == old(scene)
      ensures handlers == if scene.Some? then old(handlers) - {scene.value} else old(handlers)
    {
      if scene.Some? {
        handlers := handlers - {scene.value};
      }
    }

    method SetScene(newScene: Scene)
      modifies this
      ensures keysCurrentlyDown == old(keysCurrentlyDown)
      ensures scene == Some(newScene) && handlers == old(handlers) + {newScene}
    {
      scene := Some(newScene);
      handlers := handlers + {newScene};
    }

    /** The host delivering a key event to its target scene, whose handler
        (if it is one of this poller's) updates the key set. */
    method Dispatch(e: KeyEvent)
      modifies this
      ensures State() == Deliver(old(State()), e)
      ensures old(Valid()) ==> Valid()
    {
      if e.target in handlers {
        if e.Pressed? {
          keysCurrentlyDown := keysCurrentlyDown + {e.code};
        } else {
          keysCurrentlyDown := keysCurrentlyDown - {e.code};
        }
      }
    }
  }

  /** The class's static `instance` slot. */
  class KeyPollingSingleton {
    var instance: KeyPolling?

    constructor ()
      ensures instance == null
    {
      instance := null;
    }

    /** `getInstance()`: creates the poller on the first call and returns
        that same poller on every later one. */
    method GetInstance() returns (poller: KeyPolling)
      modifies this
      ensures instance == poller
      ensures old(instance) != null ==> poller == old(instance)
      ensures old(instance) == null ==> fresh(poller) && poller.State() == Unbound && poller.Valid()
    {
      if instance == null {
        instance := new KeyPolling();
      }
      poller := instance;
    }
  }
}
