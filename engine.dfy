/** The abstract game engine shared by every game: the logical input state
    (keyboard keys, touch controls and their mobile aliases), the lifecycle
    flags, the score/level/game-end notifications and the per-frame dispatch
    rule. Concrete games hold an `Engine` and call into it. */
module GameEngine {
  import opened Common

  /** One call of a UI callback, in the order the calls were made. */
  datatype Event =
    | ScoreChanged(score: real)
    | LevelChanged(level: int)
    | GameEnded(score: real, level: int)

  /** The callback log entry of `updateScore`: nothing when no handler is set. */
  function ScoreEvent(handler: bool, score: real): seq<Event>
  {
    if handler then [ScoreChanged(score)] else []
  }

  function LevelEvent(handler: bool, level: int): seq<Event>
  {
    if handler then [LevelChanged(level)] else []
  }

  function EndEvent(handler: bool, score: real, level: int): seq<Event>
  {
    if handler then [GameEnded(score, level)] else []
  }

  /** The callback log of k successive `updateScore(score + step)` calls
      starting from `base`. */
  function ScoreRun(handler: bool, base: real, step: real, k: nat): (r: seq<Event>)
    ensures |r| == if handler then k else 0
  {
    if k == 0 then [] else ScoreRun(handler, base, step, k - 1) + ScoreEvent(handler, base + step * k as real)
  }

  /** With a handler set, the i-th call reports base + (i + 1) * step. */
  lemma {:induction false} ScoreRunEntries(handler: bool, base: real, step: real, k: nat)
    requires handler
    ensures forall i :: 0 <= i < k ==> ScoreRun(handler, base, step, k)[i] == ScoreChanged(base + step * (i + 1) as real)
  {
    if k > 0 {
      ScoreRunEntries(handler, base, step, k - 1);
      var r0 := ScoreRun(handler, base, step, k - 1);
      assert ScoreRun(handler, base, step, k) == r0 + [ScoreChanged(base + step * k as real)];
    }
  }

  /** One more `updateScore(score + step)` call extends the log by one
      entry. */
  lemma ScoreRunNext(handler: bool, base: real, step: real, k: nat)
    ensures ScoreRun(handler, base, step, k + 1) == ScoreRun(handler, base, step, k) + ScoreEvent(handler, base + step * k as real + step)
  {
    var next, last := base + step * (k + 1) as real, base + step * k as real + step;
    assert next == last;
    assert ScoreEvent(handler, next) == ScoreEvent(handler, last);
  }

  /** A log that holds k such calls after `log0`, reaching `score`, holds
      k + 1 once the next call's entry is appended. */
  lemma LogExtends(log0: seq<Event>, log: seq<Event>, handler: bool, base: real, step: real, k: nat, score: real)
    requires log == log0 + ScoreRun(handler, base, step, k)
    requires score == base + step * k as real
    ensures log + ScoreEvent(handler, score + step) == log0 + ScoreRun(handler, base, step, k + 1)
  {
    ScoreRunNext(handler, base, step, k);
    var e := ScoreEvent(handler, base + step * k as real + step);
    assert ScoreEvent(handler, score + step) == e;
    assert log0 + ScoreRun(handler, base, step, k) + e == log0 + (ScoreRun(handler, base, step, k) + e);
  }

  /** The key names a mobile action stands for in handleMobilePress,
      handleMobileRelease and handleMobileInput. */
  function Aliases(action: string): set<string>
  {
    if action == "up" then {"arrowup", "w", " ", "spacebar"}
    else if action == "down" then {"arrowdown", "s"}
    else if action == "left" then {"arrowleft", "a"}
    else if action == "right" then {"arrowright", "d"}
    else if action == "shoot" then {" ", "spacebar"}
    else {}
  }

  /** `keys` after the alias keys of `action` are added: the aliases are held
      and every other key is as it was. */
  function PressedKeys(keys: set<string>, action: string): (r: set<string>)
    ensures Aliases(action) <= r
    ensures forall k :: k !in Aliases(action) ==> (k in r <==> k in keys)
  {
    keys + Aliases(action)
  }

  /** `keys` after the alias keys of `action` are deleted, whether or not
      another action had added them too. */
  function ReleasedKeys(keys: set<string>, action: string): (r: set<string>)
    ensures r !! Aliases(action)
    ensures forall k :: k !in Aliases(action) ==> (k in r <==> k in keys)
  {
    keys - Aliases(action)
  }

  /** JavaScript Set.add on a set kept in insertion order. */
  function SetAdd(s: seq<string>, x: string): (r: seq<string>)
    ensures x in r
    ensures forall y :: y in r <==> y in s || y == x
    ensures x in s ==> r == s
    ensures x !in s ==> r == s + [x]
  {
    if x in s then s else s + [x]
  }

  /** JavaScript Set.delete on a set kept in insertion order. */
  function SetDelete(s: seq<string>, x: string): (r: seq<string>)
    ensures x !in r
    ensures forall y :: y in r <==> y in s && y != x
    ensures |r| <= |s|
    ensures x !in s ==> r == s
  {
    if s == [] then []
    else if s[0] == x then SetDelete(s[1..], x)
    else [s[0]] + SetDelete(s[1..], x)
  }

  /** No element occurs twice: the shape of a JavaScript Set. */
  predicate Distinct(s: seq<string>)
  {
    forall i, j :: 0 <= i < j < |s| ==> s[i] != s[j]
  }

  /** On a set-shaped sequence, deleting the member at position k keeps the
      elements before and after it in their order. */
  lemma {:induction false} SetDeleteKeepsOrder(s: seq<string>, k: nat)
    requires Distinct(s) && k < |s|
    ensures SetDelete(s, s[k]) == s[..k] + s[k + 1..]
  {
    if k == 0 {
      assert s[0] !in s[1..];
      assert s[1..] == s[k + 1..];
    } else {
      var t := s[1..];
      assert Distinct(t);
      assert t[k - 1] == s[k];
      SetDeleteKeepsOrder(t, k - 1);
      assert s[..k] == [s[0]] + t[..k - 1];
      assert t[k..] == s[k + 1..];
    }
  }

  lemma {:induction false} SetDeleteDistinct(s: seq<string>, x: string)
    requires Distinct(s)
    ensures Distinct(SetDelete(s, x))
  {
    if s != [] {
      SetDeleteDistinct(s[1..], x);
      var t := SetDelete(s[1..], x);
      if s[0] != x {
        assert s[0] !in s[1..];
        assert s[0] !in t;
        assert SetDelete(s, x) == [s[0]] + t;
      }
    }
  }

  lemma SetAddDistinct(s: seq<string>, x: string)
    requires Distinct(s)
    ensures Distinct(SetAdd(s, x))
  {
  }

  /** String.prototype.toLowerCase on the ASCII letters. */
  function Lower(s: string): (r: string)
    ensures |r| == |s|
    ensures forall i :: 0 <= i < |s| ==> ('A' <= s[i] <= 'Z' ==> r[i] as int == s[i] as int + 32)
    ensures forall i :: 0 <= i < |s| ==> (!('A' <= s[i] <= 'Z') ==> r[i] == s[i])
  {
    if s == [] then []
    else [if 'A' <= s[0] <= 'Z' then (s[0] as int + 32) as char else s[0]] + Lower(s[1..])
  }

  /** The key names a keyboard event stores: both space names for the Space
      code, otherwise the lowercased key. */
  function KeyNames(key: string, code: string): set<string>
  {
    if code == "Space" then {" ", "spacebar"} else {Lower(key)}
  }

  /** The swipe classifier of the touch-end handler: the dominant axis must
      move more than 30 px; a tie goes to the vertical axis; positive x is
      right and positive y is down. */
  function Swipe(dx: real, dy: real): (r: Option<string>)
    ensures r == Some("right") <==> Abs(dx) > Abs(dy) && dx > 30.0
    ensures r == Some("left") <==> Abs(dx) > Abs(dy) && dx < -30.0
    ensures r == Some("down") <==> Abs(dx) <= Abs(dy) && dy > 30.0
    ensures r == Some("up") <==> Abs(dx) <= Abs(dy) && dy < -30.0
    ensures r.Some? ==> r.value in {"right", "left", "down", "up"}
  {
    if Abs(dx) > Abs(dy) then
      if Abs(dx) > 30.0 then (if dx > 0.0 then Some("right") else Some("left")) else None
    else
      if Abs(dy) > 30.0 then (if dy > 0.0 then Some("down") else Some("up")) else None
  }

  /** What one animation frame does. */
  datatype Phase = UpdatePhase | RenderPhase

  /** The gameLoop dispatch rule: nothing while stopped, render only while
      paused, otherwise update then render. */
  function FramePhases(running: bool, paused: bool): (r: seq<Phase>)
    ensures (UpdatePhase in r) <==> running && !paused
    ensures (RenderPhase in r) <==> running
    ensures r != [] ==> r[|r| - 1] == RenderPhase
    ensures UpdatePhase in r ==> r[0] == UpdatePhase && |r| == 2
  {
    if !running then []
    else if paused then [RenderPhase]
    else [UpdatePhase, RenderPhase]
  }

  class Engine {
    var running: bool
    var paused: bool
    /** An animation frame is requested (the `animationId` of the loop chain). */
    var frameRequested: bool
    var score: real
    var level: int
    var keys: set<string>
    /** The touch-control set, in insertion order. */
    var touchControls: seq<string>
    /** Whether the UI has set onScoreChange, onLevelChange, onGameEnd. */
    var onScoreChange: bool
    var onLevelChange: bool
    var onGameEnd: bool
    /** Every callback call made so far. */
    var events: seq<Event>

    constructor ()
      ensures !running && !paused && !frameRequested
      ensures score == 0.0 && level == 1
      ensures keys == {} && touchControls == []
      ensures !onScoreChange && !onLevelChange && !onGameEnd && events == []
    {
      running, paused, frameRequested := false, false, false;
      score, level := 0.0, 1;
      keys, touchControls := {}, [];
      onScoreChange, onLevelChange, onGameEnd := false, false, false;
      events := [];
    }

    /** The UI assigns the three callbacks after it builds a game. */
    method SetCallbacks(scoreHandler: bool, levelHandler: bool, endHandler: bool)
      modifies this`onScoreChange, this`onLevelChange, this`onGameEnd
      ensures onScoreChange == scoreHandler && onLevelChange == levelHandler && onGameEnd == endHandler
    {
      onScoreChange, onLevelChange, onGameEnd := scoreHandler, levelHandler, endHandler;
    }

    /** The keydown listener: stores the key names and toggles pause on `p`. */
    method KeyDown(key: string, code: string)
      modifies this`keys, this`paused
      ensures keys == old(keys) + KeyNames(key, code)
      ensures paused == (if Lower(key) == "p" then !old(paused) else old(paused))
    {
      var k := Lower(key);
      if code == "Space" {
        keys := keys + {" "};
        keys := keys + {"spacebar"};
      } else {
        keys := keys + {k};
      }
      if k == "p" {
        if paused { Resume(); } else { Pause(); }
      }
    }

    /** The keyup listener: deletes the key names the matching keydown stored. */
    method KeyUp(key: string, code: string)
      modifies this`keys
      ensures keys == old(keys) - KeyNames(key, code)
    {
      if code == "Space" {
        keys := keys - {" "};
        keys := keys - {"spacebar"};
      } else {
        keys := keys - {Lower(key)};
      }
    }

    /** The canvas blur listener forgets every held key. */
    method Blur()
      modifies this`keys
      ensures keys == {}
    {
      keys := {};
    }

    /** The touchend listener: a swipe from (startX, startY) to (endX, endY)
        issues one mobile input; a start coordinate of 0 means no swipe. */
    method TouchEnd(startX: real, startY: real, endX: real, endY: real)
      modifies this`keys
      ensures startX == 0.0 || startY == 0.0 ==> keys == old(keys)
      ensures startX != 0.0 && startY != 0.0 ==>
        keys == old(keys) + (match Swipe(endX - startX, endY - startY)
                             case Some(a) => Aliases(a)
                             case None => {})
    {
      if startX == 0.0 || startY == 0.0 {
        return;
      }
      var dir := Swipe(endX - startX, endY - startY);
      if dir.Some? {
        HandleMobileInput(dir.value);
      }
    }

    /** handleMobileInput: a simulated key tap that adds the aliases now; the
        deletion 100 ms later is the separate method ExpireMobileInput. */
    method HandleMobileInput(action: string)
      modifies this`keys
      ensures keys == PressedKeys(old(keys), action)
    {
      keys := keys + Aliases(action);
    }

    /** The deferred half of handleMobileInput. */
    method ExpireMobileInput(action: string)
      modifies this`keys
      ensures keys == ReleasedKeys(old(keys), action)
    {
      keys := keys - Aliases(action);
    }

    /** handleMobilePress: records the action and holds its alias keys. */
    method HandleMobilePress(action: string)
      modifies this`touchControls, this`keys
      ensures touchControls == SetAdd(old(touchControls), action)
      ensures keys == PressedKeys(old(keys), action)
    {
      touchControls := SetAdd(touchControls, action);
      keys := keys + Aliases(action);
    }

    /** handleMobileRelease: forgets the action and deletes its alias keys. */
    method HandleMobileRelease(action: string)
      modifies this`touchControls, this`keys
      ensures touchControls == SetDelete(old(touchControls), action)
      ensures keys == ReleasedKeys(old(keys), action)
    {
      touchControls := SetDelete(touchControls, action);
      keys := keys - Aliases(action);
    }

    /** updateScore: stores exactly its argument and reports it. */
    method UpdateScore(newScore: real)
      modifies this`score, this`events
      ensures score == newScore
      ensures events == old(events) + ScoreEvent(onScoreChange, newScore)
    {
      score := newScore;
      if onScoreChange {
        events := events + [ScoreChanged(score)];
      }
    }

    /** One more award of `step` points in a run of awards that started at
        `base` with the log at `log0`. */
    method Award(step: real, ghost base: real, ghost log0: seq<Event>, ghost k: nat)
      modifies this`score, this`events
      requires score == base + step * k as real
      requires events == log0 + ScoreRun(onScoreChange, base, step, k)
      ensures score == base + step * (k + 1) as real
      ensures events == log0 + ScoreRun(onScoreChange, base, step, k + 1)
    {
      LogExtends(log0, events, onScoreChange, base, step, k, score);
      UpdateScore(score + step);
    }

    /** updateLevel: stores exactly its argument and reports it. */
    method UpdateLevel(newLevel: int)
      modifies this`level, this`events
      ensures level == newLevel
      ensures events == old(events) + LevelEvent(onLevelChange, newLevel)
    {
      level := newLevel;
      if onLevelChange {
        events := events + [LevelChanged(level)];
      }
    }

    /** endGame: stops the game and reports the current score and level. */
    method EndGame()
      modifies this`running, this`events
      ensures !running
      ensures events == old(events) + EndEvent(onGameEnd, score, level)
    {
      running := false;
      if onGameEnd {
        events := events + [GameEnded(score, level)];
      }
    }

    /** A direct `this.onGameEnd(score, level)` call, as a game may make
        without the guard of endGame: it throws when no handler is set, and
        it does not stop the game. */
    method CallGameEnd() returns (thrown: bool)
      modifies this`events
      ensures thrown == !onGameEnd
      ensures events == old(events) + EndEvent(onGameEnd, score, level)
    {
      thrown := !onGameEnd;
      if onGameEnd {
        events := events + [GameEnded(score, level)];
      }
    }

    /** start: running and not paused. Its immediate first frame is the next
        call of the game's Frame. */
    method Start()
      modifies this`running, this`paused
      ensures running && !paused
    {
      running := true;
      paused := false;
    }

    method Pause()
      modifies this`paused
      ensures paused
    {
      paused := true;
    }

    method Resume()
      modifies this`paused
      ensures !paused
    {
      paused := false;
    }

    /** stop: not running, and the pending animation frame is cancelled. */
    method Stop()
      modifies this`running, this`frameRequested
      ensures !running && !frameRequested
    {
      running := false;
      frameRequested := false;
    }

    /** destroy: stop, and forget all input. Calling it twice leaves the same
        state as calling it once. */
    method Destroy()
      modifies this`running, this`frameRequested, this`keys, this`touchControls
      ensures !running && !frameRequested && keys == {} && touchControls == []
    {
      Stop();
      keys := {};
      touchControls := [];
    }

    /** The scheduling half of gameLoop: a running loop requests the next
        frame whether or not this frame's update or render threw; a stopped
        loop requests none. */
    method ScheduleNext(wasRunning: bool)
      modifies this`frameRequested
      ensures frameRequested == wasRunning
    {
      frameRequested := wasRunning;
    }
  }

  /** Pressing then releasing an action leaves none of its aliases held. */
  lemma PressThenRelease(keys: set<string>, action: string)
    ensures ReleasedKeys(PressedKeys(keys, action), action) !! Aliases(action)
    ensures ReleasedKeys(PressedKeys(keys, action), action) == keys - Aliases(action)
  {
  }

  /** Releasing `shoot` also drops the space names that a still-held `up`
      had added. */
  lemma ShootReleaseDropsUpSpace(keys: set<string>)
    ensures var k := ReleasedKeys(PressedKeys(PressedKeys(keys, "up"), "shoot"), "shoot");
            " " !in k && "spacebar" !in k && "arrowup" in k && "w" in k
  {
  }

  /** An action outside the alias table changes no key. */
  lemma UnknownActionKeepsKeys(keys: set<string>, action: string)
    requires action !in {"up", "down", "left", "right", "shoot"}
    ensures PressedKeys(keys, action) == keys && ReleasedKeys(keys, action) == keys
  {
  }

  /** Space is stored under two names, every other key under its lowercase
      name, and a key-up undoes exactly what the key-down stored. */
  lemma KeyDownThenUp(keys: set<string>, key: string, code: string)
    ensures code == "Space" ==> KeyNames(key, code) == {" ", "spacebar"}
    ensures code != "Space" ==> KeyNames(key, code) == {Lower(key)}
    ensures (keys + KeyNames(key, code)) - KeyNames(key, code) == keys - KeyNames(key, code)
  {
  }
}
