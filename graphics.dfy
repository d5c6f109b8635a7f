/** `handle_input`: the events polled in one call, applied to the run state
    and the keypad of the machine. The window system's event queue is given
    as a sequence of events. */
module Graphics {
  import opened Chip8Types
  import opened Emulator

  /** SDL key codes are 32-bit integers; printable keys use their character code. */
  type Keycode = int

  const KeyEscape: Keycode := 27
  const KeySpace: Keycode := 32

  /** The kinds of polled event the handler distinguishes. */
  datatype Event =
    | QuitEvent
    | KeyDown(sym: Keycode)
    | KeyUp(sym: Keycode)
    | OtherEvent

  /** The keypad layout the key map implements, row by row: the QWERTY keys
      1234 / QWER / ASDF / ZXCV stand for the CHIP-8 keys 123C / 456D /
      789E / A0BF. */
  const QwertyKeys: seq<char> := "1234qwerasdfzxcv"
  const KeypadKeys: seq<Nibble> := [0x1, 0x2, 0x3, 0xC, 0x4, 0x5, 0x6, 0xD,
                                    0x7, 0x8, 0x9, 0xE, 0xA, 0x0, 0xB, 0xF]

  /** The keypad index a key code selects, as the two switches of the
      handler map it; `None` for every other key. */
  function KeypadIndex(sym: Keycode): Option<Nibble>
  {
    if sym == '1' as int then Some(0x1)
    else if sym == '2' as int then Some(0x2)
    else if sym == '3' as int then Some(0x3)
    else if sym == '4' as int then Some(0xC)
    else if sym == 'q' as int then Some(0x4)
    else if sym == 'w' as int then Some(0x5)
    else if sym == 'e' as int then Some(0x6)
    else if sym == 'r' as int then Some(0xD)
    else if sym == 'a' as int then Some(0x7)
    else if sym == 's' as int then Some(0x8)
    else if sym == 'd' as int then Some(0x9)
    else if sym == 'f' as int then Some(0xE)
    else if sym == 'z' as int then Some(0xA)
    else if sym == 'x' as int then Some(0x0)
    else if sym == 'c' as int then Some(0xB)
    else if sym == 'v' as int then Some(0xF)
    else None
  }

  /** Every key of the layout selects the keypad index the layout gives it. */
  lemma KeyMapFollowsLayout(i: nat)
    requires i < |QwertyKeys|
    ensures KeypadIndex(QwertyKeys[i] as int) == Some(KeypadKeys[i])
  {
    assert QwertyKeys == ['1', '2', '3', '4', 'q', 'w', 'e', 'r',
                          'a', 's', 'd', 'f', 'z', 'x', 'c', 'v'];
  }

  /** Only the keys of the layout select a keypad index. */
  lemma KeyMapOnlyLayout(sym: Keycode)
    requires KeypadIndex(sym).Some?
    ensures exists i :: 0 <= i < |QwertyKeys| && QwertyKeys[i] as int == sym
  {
    var s := ['1', '2', '3', '4', 'q', 'w', 'e', 'r', 'a', 's', 'd', 'f', 'z', 'x', 'c', 'v'];
    assert QwertyKeys == s;
    if sym == '1' as int {
      assert s[0] as int == sym;
    } else if sym == '2' as int {
      assert s[1] as int == sym;
    } else if sym == '3' as int {
      assert s[2] as int == sym;
    } else if sym == '4' as int {
      assert s[3] as int == sym;
    } else if sym == 'q' as int {
      assert s[4] as int == sym;
    } else if sym == 'w' as int {
      assert s[5] as int == sym;
    } else if sym == 'e' as int {
      assert s[6] as int == sym;
    } else if sym == 'r' as int {
      assert s[7] as int == sym;
    } else if sym == 'a' as int {
      assert s[8] as int == sym;
    } else if sym == 's' as int {
      assert s[9] as int == sym;
    } else if sym == 'd' as int {
      assert s[10] as int == sym;
    } else if sym == 'f' as int {
      assert s[11] as int == sym;
    } else if sym == 'z' as int {
      assert s[12] as int == sym;
    } else if sym == 'x' as int {
      assert s[13] as int == sym;
    } else if sym == 'c' as int {
      assert s[14] as int == sym;
    } else if sym == 'v' as int {
      assert s[15] as int == sym;
    }
  }

  /** Some key of the layout selects keypad index `k`. */
  ghost predicate SelectedByLayoutKey(k: int)
  {
    exists i :: 0 <= i < |QwertyKeys| && KeypadIndex(QwertyKeys[i] as int) == Some(k)
  }

  /** Distinct keys select distinct keypad indices, and every one of the 16
      indices is selected by some key. */
  lemma KeyMapBijective()
    ensures forall a: Keycode, b: Keycode ::
      KeypadIndex(a).Some? && KeypadIndex(a) == KeypadIndex(b) ==> a == b
    ensures forall k :: 0 <= k < KeypadSize ==> SelectedByLayoutKey(k)
  {
    forall k | 0 <= k < KeypadSize
      ensures SelectedByLayoutKey(k)
    {
      if k == 0x0 {
        KeyMapFollowsLayout(13);
        assert KeypadIndex(QwertyKeys[13] as int) == Some(k);
      } else if k == 0x1 {
        KeyMapFollowsLayout(0);
        assert KeypadIndex(QwertyKeys[0] as int) == Some(k);
      } else if k == 0x2 {
        KeyMapFollowsLayout(1);
        assert KeypadIndex(QwertyKeys[1] as int) == Some(k);
      } else if k == 0x3 {
        KeyMapFollowsLayout(2);
        assert KeypadIndex(QwertyKeys[2] as int) == Some(k);
      } else if k == 0x4 {
        KeyMapFollowsLayout(4);
        assert KeypadIndex(QwertyKeys[4] as int) == Some(k);
      } else if k == 0x5 {
        KeyMapFollowsLayout(5);
        assert KeypadIndex(QwertyKeys[5] as int) == Some(k);
      } else if k == 0x6 {
        KeyMapFollowsLayout(6);
        assert KeypadIndex(QwertyKeys[6] as int) == Some(k);
      } else if k == 0x7 {
        KeyMapFollowsLayout(8);
        assert KeypadIndex(QwertyKeys[8] as int) == Some(k);
      } else if k == 0x8 {
        KeyMapFollowsLayout(9);
        assert KeypadIndex(QwertyKeys[9] as int) == Some(k);
      } else if k == 0x9 {
        KeyMapFollowsLayout(10);
        assert KeypadIndex(QwertyKeys[10] as int) == Some(k);
      } else if k == 0xA {
        KeyMapFollowsLayout(12);
        assert KeypadIndex(QwertyKeys[12] as int) == Some(k);
      } else if k == 0xB {
        KeyMapFollowsLayout(14);
        assert KeypadIndex(QwertyKeys[14] as int) == Some(k);
      } else if k == 0xC {
        KeyMapFollowsLayout(3);
        assert KeypadIndex(QwertyKeys[3] as int) == Some(k);
      } else if k == 0xD {
        KeyMapFollowsLayout(7);
        assert KeypadIndex(QwertyKeys[7] as int) == Some(k);
      } else if k == 0xE {
        KeyMapFollowsLayout(11);
        assert KeypadIndex(QwertyKeys[11] as int) == Some(k);
      } else {
        KeyMapFollowsLayout(15);
        assert KeypadIndex(QwertyKeys[15] as int) == Some(k);
      }
    }
  }

  /** The part of the machine the handler reads and writes. */
  type Keypad = s: seq<bool> | |s| == KeypadSize witness seq(KeypadSize, _ => false)
  datatype Controls = Controls(state: RunState, keypad: Keypad)

  /** The effect of one polled event. QUIT and ESC select QUIT; SPACE pauses
      a running machine and otherwise resumes it, even after a quit; a mapped
      key sets its keypad entry when pressed and clears it when released;
      everything else is ignored. */
  function ApplyEvent(c: Controls, e: Event): Controls
  {
    match e
    case QuitEvent => c.(state := Quit)
    case KeyDown(sym) =>
      if sym == KeyEscape then c.(state := Quit)
      else if sym == KeySpace then c.(state := if c.state == Running then Paused else Running)
      else SetKey(c, sym, true)
    case KeyUp(sym) => SetKey(c, sym, false)
    case OtherEvent => c
  }

  /** The keypad entry of a mapped key is set to `down`; other keys do nothing. */
  function SetKey(c: Controls, sym: Keycode, down: bool): Controls
  {
    match KeypadIndex(sym)
    case Some(k) => c.(keypad := c.keypad[k := down])
    case None => c
  }

  /** The effect of a batch of polled events: they are applied in order, and
      a QUIT event ends the batch. */
  function HandleEvents(c: Controls, events: seq<Event>): Controls
    decreases |events|
  {
    if events == [] then c
    else if events[0] == QuitEvent then ApplyEvent(c, events[0])
    else HandleEvents(ApplyEvent(c, events[0]), events[1..])
  }

  /** The events a batch leaves in the queue: those after its first QUIT. */
  function Unpolled(events: seq<Event>): (rest: seq<Event>)
    ensures QuitEvent !in events ==> rest == []
    ensures QuitEvent in events ==> |rest| < |events|
    decreases |events|
  {
    if events == [] then []
    else if events[0] == QuitEvent then events[1..]
    else Unpolled(events[1..])
  }

  /** A batch without QUIT events is applied event by event. */
  lemma {:induction false} HandleAppend(c: Controls, pre: seq<Event>, post: seq<Event>)
    requires QuitEvent !in pre
    ensures HandleEvents(c, pre + post) == HandleEvents(HandleEvents(c, pre), post)
    decreases |pre|
  {
    if pre == [] {
      assert pre + post == post;
    } else {
      assert pre[0] in pre;
      assert (pre + post)[0] == pre[0];
      assert (pre + post)[1..] == pre[1..] + post;
      HandleAppend(ApplyEvent(c, pre[0]), pre[1..], post);
    }
  }

  /** A QUIT event selects QUIT and nothing after it is applied. */
  lemma {:induction false} QuitEndsBatch(c: Controls, pre: seq<Event>, post: seq<Event>)
    requires QuitEvent !in pre
    ensures HandleEvents(c, pre + [QuitEvent] + post) == HandleEvents(c, pre).(state := Quit)
    ensures Unpolled(pre + [QuitEvent] + post) == post
    decreases |pre|
  {
    if pre == [] {
      assert pre + [QuitEvent] + post == [QuitEvent] + post;
    } else {
      assert pre[0] in pre;
      assert (pre + [QuitEvent] + post)[0] == pre[0];
      assert (pre + [QuitEvent] + post)[1..] == pre[1..] + [QuitEvent] + post;
      QuitEndsBatch(ApplyEvent(c, pre[0]), pre[1..], post);
    }
  }

  /** ESC selects QUIT but the batch goes on, so a SPACE after it resumes. */
  lemma EscapeThenSpaceResumes(c: Controls)
    ensures HandleEvents(c, [KeyDown(KeyEscape)]).state == Quit
    ensures HandleEvents(c, [KeyDown(KeyEscape), KeyDown(KeySpace)]).state == Running
  {
    var quit := c.(state := Quit);
    assert HandleEvents(quit, []) == quit;
    assert HandleEvents(quit, [KeyDown(KeySpace)]) == quit.(state := Running) by {
      assert HandleEvents(quit.(state := Running), []) == quit.(state := Running);
    }
    assert [KeyDown(KeyEscape), KeyDown(KeySpace)][1..] == [KeyDown(KeySpace)];
  }

  /** SPACE toggles between RUNNING and PAUSED, and resumes from QUIT. */
  lemma SpaceToggles(c: Controls)
    ensures HandleEvents(c, [KeyDown(KeySpace)]) ==
      c.(state := if c.state == Running then Paused else Running)
    ensures c.state != Quit ==>
      HandleEvents(c, [KeyDown(KeySpace), KeyDown(KeySpace)]) == c
  {
    var toggled := c.(state := if c.state == Running then Paused else Running);
    assert HandleEvents(toggled, []) == toggled;
    if c.state != Quit {
      assert HandleEvents(toggled, [KeyDown(KeySpace)]) == c by {
        assert HandleEvents(c, []) == c;
      }
      assert [KeyDown(KeySpace), KeyDown(KeySpace)][1..] == [KeyDown(KeySpace)];
    }
  }

  /** The events that can change the run state. */
  predicate ControlsRun(e: Event)
  {
    e == QuitEvent || e == KeyDown(KeyEscape) || e == KeyDown(KeySpace)
  }

  /** A batch's other events leave the run state as it was. */
  lemma {:induction false} StateOnlyByControlEvents(c: Controls, events: seq<Event>)
    requires forall i :: 0 <= i < |events| ==> !ControlsRun(events[i])
    ensures HandleEvents(c, events).state == c.state
    decreases |events|
  {
    if events != [] {
      assert !ControlsRun(events[0]);
      StateOnlyByControlEvents(ApplyEvent(c, events[0]), events[1..]);
    }
  }

  /** Whether an event presses or releases a key mapped to keypad index `k`. */
  predicate TouchesKey(e: Event, k: Nibble)
  {
    (e.KeyDown? || e.KeyUp?) && KeypadIndex(e.sym) == Some(k)
  }

  /** A keypad entry no event of the batch presses or releases keeps its value. */
  lemma {:induction false} UntouchedKeyKept(c: Controls, events: seq<Event>, k: Nibble)
    requires forall i :: 0 <= i < |events| ==> !TouchesKey(events[i], k)
    ensures HandleEvents(c, events).keypad[k] == c.keypad[k]
    decreases |events|
  {
    if events != [] {
      assert !TouchesKey(events[0], k);
      UntouchedKeyKept(ApplyEvent(c, events[0]), events[1..], k);
    }
  }

  /** After a batch with no QUIT that ends by pressing (releasing) a mapped
      key, its keypad entry is set (cleared), whatever came before. */
  lemma LastKeyEventDecides(c: Controls, events: seq<Event>, sym: Keycode, down: bool)
    requires QuitEvent !in events
    requires KeypadIndex(sym).Some?
    ensures var last := if down then KeyDown(sym) else KeyUp(sym);
      HandleEvents(c, events + [last]).keypad[KeypadIndex(sym).value] == down
  {
    var last := if down then KeyDown(sym) else KeyUp(sym);
    HandleAppend(c, events, [last]);
  }

  /** `handle_input`: poll events until the queue is empty or a QUIT event
      arrives, applying each to the run state and the keypad. The events
      left in the queue are returned. RAM, the registers, I, PC and the
      display are never written. */
  method HandleInput(chip8: Chip8, events: seq<Event>) returns (unpolled: seq<Event>)
    requires chip8.Valid()
    modifies chip8`state, chip8.keypad
    ensures chip8.Valid()
    ensures Controls(chip8.state, chip8.keypad[..]) ==
      HandleEvents(Controls(old(chip8.state), old(chip8.keypad[..])), events)
    ensures unpolled == Unpolled(events)
    ensures chip8.PC == old(chip8.PC) && chip8.I == old(chip8.I)
    ensures unchanged(chip8.ram) && unchanged(chip8.V) && unchanged(chip8.display)
  {
    ghost var goal := HandleEvents(Controls(chip8.state, chip8.keypad[..]), events);
    var queue := events;
    while queue != []
      invariant chip8.Valid()
      invariant HandleEvents(Controls(chip8.state, chip8.keypad[..]), queue) == goal
      invariant Unpolled(queue) == Unpolled(events)
      decreases |queue|
    {
      var event := queue[0];
      queue := queue[1..];
      match event {
        case QuitEvent =>
          chip8.state := Quit;
          return queue;
        case KeyDown(sym) =>
          if sym == KeyEscape {
            chip8.state := Quit;
          } else if sym == KeySpace {
            if chip8.state == Running {
              chip8.state := Paused;
            } else {
              chip8.state := Running;
            }
          } else {
            var k := KeypadIndex(sym);
            if k.Some? {
              chip8.keypad[k.value] := true;
            }
          }
        case KeyUp(sym) =>
          var k := KeypadIndex(sym);
          if k.Some? {
            chip8.keypad[k.value] := false;
          }
        case OtherEvent =>
      }
    }
    return [];
  }
}
