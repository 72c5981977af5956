/**
  The Boost panel's state logic: the ten toggle flags, the optimisation
  score computed from them, the grade and ring colour shown for a score,
  and what one click on a toggle row does to the flags.

  Every OS call behind a toggle (power plans, registry values, services,
  timer resolution, killing Explorer) is an opaque action: the source
  ignores its outcome, so only the action's choice, its argument, the
  flag it writes back and the notification it pushes are modelled.
 */
module Boost {
  import opened Palette

  /** One boolean field of the application state per optimisation. */
  datatype Flag =
    | ExplorerKilled | HighPerfPower | AnimsDisabled | GameModeOn | CpuBoost
    | SuperfetchOff | HpetOn | GameBarOff | NvidiaBoost | NetworkOpt

  /** A snapshot of the ten flags: the set of those that are on. */
  type Toggles = set<Flag>

  /** The state at start-up: every flag off. */
  const AllOff: Toggles := {}

  /** Every flag, in declaration order. */
  const AllFlags: seq<Flag> :=
    [ExplorerKilled, HighPerfPower, AnimsDisabled, GameModeOn, CpuBoost,
     SuperfetchOff, HpetOn, GameBarOff, NvidiaBoost, NetworkOpt]

  predicate Get(t: Toggles, f: Flag)
  {
    f in t
  }

  /** The snapshot with flag `f` set to `b` and nothing else changed. */
  function With(t: Toggles, f: Flag, b: bool): (u: Toggles)
    ensures Get(u, f) == b
    ensures forall g :: g != f ==> Get(u, g) == Get(t, g)
  {
    if b then t + {f} else t - {f}
  }

  /** Setting two different flags gives the same snapshot in either order. */
  lemma WithCommutes(t: Toggles, f: Flag, a: bool, g: Flag, b: bool)
    requires f != g
    ensures With(With(t, f, a), g, b) == With(With(t, g, b), f, a)
  {
  }

  // ---------------------------------------------------------------------------
  // The optimisation score
  // ---------------------------------------------------------------------------

  /** What a flag adds to the score when it is on; CPU boost and NVIDIA boost add nothing. */
  function Weight(f: Flag): nat
  {
    match f
    case ExplorerKilled => 10
    case HighPerfPower => 20
    case AnimsDisabled => 8
    case GameModeOn => 12
    case CpuBoost => 0
    case SuperfetchOff => 15
    case HpetOn => 18
    case GameBarOff => 10
    case NvidiaBoost => 0
    case NetworkOpt => 7
  }

  /** The score as the source computes it: a chain of conditional additions over eight flags. */
  function BoostScore(t: Toggles): (s: int)
    ensures 0 <= s <= 100
  {
    (if ExplorerKilled in t then 10 else 0)
    + (if HighPerfPower in t then 20 else 0)
    + (if AnimsDisabled in t then 8 else 0)
    + (if GameModeOn in t then 12 else 0)
    + (if SuperfetchOff in t then 15 else 0)
    + (if HpetOn in t then 18 else 0)
    + (if GameBarOff in t then 10 else 0)
    + (if NetworkOpt in t then 7 else 0)
  }

  /** Reference definition: the sum of the weights of the flags in `fs` that are on. */
  function WeightedSum(fs: seq<Flag>, t: Toggles): (s: nat)
  {
    if fs == [] then 0
    else (if Get(t, fs[0]) then Weight(fs[0]) else 0) + WeightedSum(fs[1..], t)
  }

  /** The score is the weighted sum over the whole registry of flags. */
  lemma {:induction false} ScoreIsWeightedSum(t: Toggles)
    ensures BoostScore(t) == WeightedSum(AllFlags, t)
  {
    var fs := AllFlags;
    assert WeightedSum(fs[10..], t) == 0;
    assert WeightedSum(fs[9..], t) == (if NetworkOpt in t then 7 else 0) by {
      assert fs[9..][1..] == fs[10..];
    }
    assert WeightedSum(fs[8..], t) == WeightedSum(fs[9..], t) by {
      assert fs[8..][1..] == fs[9..];
    }
    assert WeightedSum(fs[7..], t) == (if GameBarOff in t then 10 else 0) + WeightedSum(fs[8..], t) by {
      assert fs[7..][1..] == fs[8..];
    }
    assert WeightedSum(fs[6..], t) == (if HpetOn in t then 18 else 0) + WeightedSum(fs[7..], t) by {
      assert fs[6..][1..] == fs[7..];
    }
    assert WeightedSum(fs[5..], t) == (if SuperfetchOff in t then 15 else 0) + WeightedSum(fs[6..], t) by {
      assert fs[5..][1..] == fs[6..];
    }
    assert WeightedSum(fs[4..], t) == WeightedSum(fs[5..], t) by {
      assert fs[4..][1..] == fs[5..];
    }
    assert WeightedSum(fs[3..], t) == (if GameModeOn in t then 12 else 0) + WeightedSum(fs[4..], t) by {
      assert fs[3..][1..] == fs[4..];
    }
    assert WeightedSum(fs[2..], t) == (if AnimsDisabled in t then 8 else 0) + WeightedSum(fs[3..], t) by {
      assert fs[2..][1..] == fs[3..];
    }
    assert WeightedSum(fs[1..], t) == (if HighPerfPower in t then 20 else 0) + WeightedSum(fs[2..], t) by {
      assert fs[1..][1..] == fs[2..];
    }
    assert fs[0..] == fs;
  }

  /** Turning one flag on adds exactly its weight, whatever the other flags are. */
  lemma ScoreStep(t: Toggles, f: Flag)
    ensures BoostScore(With(t, f, true)) == BoostScore(With(t, f, false)) + Weight(f)
  {
  }

  /** CPU boost and NVIDIA boost never change the score. */
  lemma UnweightedFlagsIgnored(t: Toggles, b: bool)
    ensures BoostScore(With(t, CpuBoost, b)) == BoostScore(t)
    ensures BoostScore(With(t, NvidiaBoost, b)) == BoostScore(t)
  {
    ScoreStep(t, CpuBoost);
    ScoreStep(t, NvidiaBoost);
  }

  /** The eight flags that count towards the score. */
  predicate AllWeightedOn(t: Toggles)
  {
    {ExplorerKilled, HighPerfPower, AnimsDisabled, GameModeOn,
     SuperfetchOff, HpetOn, GameBarOff, NetworkOpt} <= t
  }

  /** The score reaches 100 exactly when all eight weighted flags are on. */
  lemma ScoreFullIffAllWeighted(t: Toggles)
    ensures BoostScore(t) == 100 <==> AllWeightedOn(t)
  {
  }

  /** Enabling A then B gives the same score as enabling B then A. */
  lemma ScoreOrderIndependent(t: Toggles, f: Flag, a: bool, g: Flag, b: bool)
    requires f != g
    ensures BoostScore(With(With(t, f, a), g, b)) == BoostScore(With(With(t, g, b), f, a))
  {
    WithCommutes(t, f, a, g, b);
  }

  // ---------------------------------------------------------------------------
  // Grade and ring colour
  // ---------------------------------------------------------------------------

  datatype Grade = Baseline | Fair | Good | Excellent

  /** Position of a grade in the order Baseline < Fair < Good < Excellent. */
  function GradeRank(g: Grade): nat
  {
    match g
    case Baseline => 0
    case Fair => 1
    case Good => 2
    case Excellent => 3
  }

  /** The four-band grade shown under the score. */
  function GradeOf(score: int): (g: Grade)
    ensures g == Excellent <==> score > 80
    ensures g == Good <==> 50 < score <= 80
    ensures g == Fair <==> 20 < score <= 50
    ensures g == Baseline <==> score <= 20
  {
    if score > 80 then Excellent
    else if score > 50 then Good
    else if score > 20 then Fair
    else Baseline
  }

  /** The caption the panel prints for a grade. */
  function GradeCaption(g: Grade): string
  {
    match g
    case Excellent => "Excellent — Near-native performance"
    case Good => "Good — Significant improvements applied"
    case Fair => "Fair — Apply more toggles below"
    case Baseline => "Baseline — Enable tweaks to boost FPS"
  }

  /** Different grades are captioned differently. */
  lemma GradeCaptionInjective(g: Grade, h: Grade)
    requires GradeCaption(g) == GradeCaption(h)
    ensures g == h
  {
  }

  /** The caption the panel prints under a score. */
  function ScoreCaption(score: int): (c: string)
    ensures score > 80 ==> c == "Excellent — Near-native performance"
    ensures 50 < score <= 80 ==> c == "Good — Significant improvements applied"
    ensures 20 < score <= 50 ==> c == "Fair — Apply more toggles below"
    ensures score <= 20 ==> c == "Baseline — Enable tweaks to boost FPS"
  {
    GradeCaption(GradeOf(score))
  }

  /** A higher score never gets a lower grade. */
  lemma GradeMonotone(a: int, b: int)
    requires a <= b
    ensures GradeRank(GradeOf(a)) <= GradeRank(GradeOf(b))
  {
  }

  /** The three-band colour of the score ring. */
  function RingTint(score: int): (c: Tint)
    ensures c == AccentGreen <==> score > 60
    ensures c == AccentOrange <==> 30 < score <= 60
    ensures c == AccentRed <==> score <= 30
  {
    if score > 60 then AccentGreen
    else if score > 30 then AccentOrange
    else AccentRed
  }

  /** Position of a ring colour in the order red < orange < green. */
  function RingRank(c: Tint): nat
  {
    match c
    case AccentRed => 0
    case AccentOrange => 1
    case AccentGreen => 2
    case _ => 0
  }

  /** A higher score never gets a worse ring colour. */
  lemma RingMonotone(a: int, b: int)
    requires a <= b
    ensures RingRank(RingTint(a)) <= RingRank(RingTint(b))
  {
  }

  /** High performance power and SuperFetch off alone score 35, a Fair grade. */
  lemma ScenarioPowerAndSuperfetch()
    ensures BoostScore({HighPerfPower, SuperfetchOff}) == 35
    ensures GradeOf(BoostScore({HighPerfPower, SuperfetchOff})) == Fair
  {
  }

  // ---------------------------------------------------------------------------
  // Actions and toggle rows
  // ---------------------------------------------------------------------------

  /** The optimisation functions a toggle row can call. */
  datatype Action =
    | SetHighPerformancePower | SetWindowsAnimations | SetGameMode | SetGameBar
    | SetHpet | SetSuperfetch | SetNetworkOpt | SetCpuPriority
    | KillExplorer | RestartExplorer

  /** The message and tint an action pushes when called with `arg`. */
  function Notice(a: Action, arg: bool): (n: (string, Tint))
    ensures n.1 == if a == KillExplorer then AccentOrange else AccentGreen
  {
    match a
    case SetHighPerformancePower =>
      (if arg then "High Performance power plan activated" else "Balanced power plan restored", AccentGreen)
    case SetWindowsAnimations =>
      (if arg then "Windows animations re-enabled" else "Windows animations disabled — less CPU waste", AccentGreen)
    case SetGameMode =>
      (if arg then "Windows Game Mode enabled" else "Windows Game Mode disabled", AccentGreen)
    case SetGameBar =>
      (if arg then "Game Bar enabled" else "Game Bar / DVR disabled — reclaims RAM", AccentGreen)
    case SetHpet =>
      (if arg then "Timer resolution set to 1ms — input lag ↓" else "Timer resolution restored", AccentGreen)
    case SetSuperfetch =>
      (if arg then "SuperFetch/SysMain stopped — RAM freed" else "SuperFetch/SysMain re-enabled", AccentGreen)
    case SetNetworkOpt =>
      (if arg then "Network optimised — Nagle off, ACK=1" else "Network settings restored", AccentGreen)
    case SetCpuPriority =>
      (if arg then "CPU priority separation maximised" else "CPU priority restored", AccentGreen)
    case KillExplorer => ("Explorer killed — taskbar hidden", AccentOrange)
    case RestartExplorer => ("Explorer restarted", AccentGreen)
  }

  /** What an action writes back into the flags; only three of them write anything. */
  function Writeback(t: Toggles, a: Action, arg: bool): (u: Toggles)
    ensures forall g :: g != GameBarOff && g != ExplorerKilled ==> Get(u, g) == Get(t, g)
    ensures a == SetGameBar ==> u == With(t, GameBarOff, !arg)
    ensures a == KillExplorer ==> u == With(t, ExplorerKilled, true)
    ensures a == RestartExplorer ==> u == With(t, ExplorerKilled, false)
    ensures a != SetGameBar && a != KillExplorer && a != RestartExplorer ==> u == t
  {
    match a
    case SetGameBar => With(t, GameBarOff, !arg)
    case KillExplorer => With(t, ExplorerKilled, true)
    case RestartExplorer => With(t, ExplorerKilled, false)
    case _ => t
  }

  /** The choice ToggleExplorer makes from the current flag. */
  function ExplorerToggleChoice(t: Toggles): (a: Action)
    ensures a == KillExplorer || a == RestartExplorer
    ensures a == RestartExplorer <==> ExplorerKilled in t
  {
    if ExplorerKilled in t then RestartExplorer else KillExplorer
  }

  /** ToggleExplorer on its own negates the Explorer flag. */
  lemma ToggleExplorerNegates(t: Toggles)
    ensures Writeback(t, ExplorerToggleChoice(t), false) == With(t, ExplorerKilled, ExplorerKilled !in t)
  {
  }

  /** An action that is not about Explorer says whether it was called with true or false. */
  lemma NoticeTellsArgument(a: Action)
    requires a != KillExplorer && a != RestartExplorer
    ensures Notice(a, true).0 != Notice(a, false).0
  {
  }

  /** The rows of the Boost panel, in the order they are drawn. */
  datatype Row =
    | HighPerfRow | HpetRow | CpuRow | NetworkRow
    | ExplorerRow | SuperfetchRow | AnimsRow | GameModeRow | GameBarRow

  /** The flag a row's switch is bound to. */
  function Bound(r: Row): (f: Flag)
    ensures f != NvidiaBoost
  {
    match r
    case HighPerfRow => HighPerfPower
    case HpetRow => HpetOn
    case CpuRow => CpuBoost
    case NetworkRow => NetworkOpt
    case ExplorerRow => ExplorerKilled
    case SuperfetchRow => SuperfetchOff
    case AnimsRow => AnimsDisabled
    case GameModeRow => GameModeOn
    case GameBarRow => GameBarOff
  }

  /** Different rows are bound to different flags. */
  lemma BoundInjective(r: Row, q: Row)
    requires Bound(r) == Bound(q)
    ensures r == q
  {
  }

  /**
    The action a row's callback invokes, and its argument, given the flags
    after the switch flipped (`on` is the new value of the bound flag).
    The Explorer row ignores `on` and calls ToggleExplorer; the animations
    and Game Bar rows pass the negation, because their flags mean "off".
   */
  function RowCall(t: Toggles, r: Row, on: bool): (call: (Action, bool))
    ensures (call.0 == KillExplorer || call.0 == RestartExplorer) <==> r == ExplorerRow
    ensures call.0 == SetGameBar <==> r == GameBarRow
    ensures r != ExplorerRow ==> call.1 == if r == AnimsRow || r == GameBarRow then !on else on
  {
    match r
    case HighPerfRow => (SetHighPerformancePower, on)
    case HpetRow => (SetHpet, on)
    case CpuRow => (SetCpuPriority, on)
    case NetworkRow => (SetNetworkOpt, on)
    case ExplorerRow => (ExplorerToggleChoice(t), on)
    case SuperfetchRow => (SetSuperfetch, on)
    case AnimsRow => (SetWindowsAnimations, !on)
    case GameModeRow => (SetGameMode, on)
    case GameBarRow => (SetGameBar, !on)
  }

  /** The flags after the switch of row `r` flipped, before its callback runs. */
  function Flipped(t: Toggles, r: Row): Toggles
  {
    With(t, Bound(r), !Get(t, Bound(r)))
  }

  /** Click on row `r`: the switch flips its flag, then the callback runs with the new value. */
  function Click(t: Toggles, r: Row): (u: Toggles)
    ensures forall f :: f != Bound(r) ==> Get(u, f) == Get(t, f)
  {
    var t1 := Flipped(t, r);
    var call := RowCall(t1, r, Get(t1, Bound(r)));
    Writeback(t1, call.0, call.1)
  }

  /** The notification one click on row `r` pushes. */
  function ClickNotice(t: Toggles, r: Row): (n: (string, Tint))
    ensures n.1 == AccentOrange <==> r == ExplorerRow && ExplorerKilled in t
  {
    var t1 := Flipped(t, r);
    var call := RowCall(t1, r, Get(t1, Bound(r)));
    Notice(call.0, call.1)
  }

  /**
    A click on any row other than Explorer negates exactly its bound flag
    and leaves every other flag as it was. For the Game Bar row this is the
    agreement of the switch's flip with SetGameBar's own write.
   */
  lemma ClickFlipsOneFlag(t: Toggles, r: Row)
    requires r != ExplorerRow
    ensures Click(t, r) == With(t, Bound(r), !Get(t, Bound(r)))
    ensures Get(Click(t, r), Bound(r)) != Get(t, Bound(r))
    ensures forall f :: f != Bound(r) ==> Get(Click(t, r), f) == Get(t, f)
  {
    if r == GameBarRow {
      assert Click(t, r) == With(t, GameBarOff, GameBarOff !in t);
    }
  }

  /**
    A click on the Explorer row leaves every flag as it was: the switch
    flips the flag, and ToggleExplorer, reading the flipped value, writes
    the original value back.
   */
  lemma ClickExplorerRestores(t: Toggles)
    ensures Click(t, ExplorerRow) == t
    ensures ClickNotice(t, ExplorerRow) ==
            (if ExplorerKilled in t then Notice(KillExplorer, ExplorerKilled !in t)
             else Notice(RestartExplorer, ExplorerKilled !in t))
  {
  }

  /** Starting from Explorer running, no row ever marks it killed, and its row only restarts it. */
  lemma ExplorerNeverKilled(t: Toggles, r: Row)
    requires ExplorerKilled !in t
    ensures ExplorerKilled !in Click(t, r)
    ensures r == ExplorerRow ==> ClickNotice(t, r) == ("Explorer restarted", AccentGreen)
  {
    if r == ExplorerRow {
      ClickExplorerRestores(t);
    } else {
      ClickFlipsOneFlag(t, r);
    }
  }

  /** A click on a row other than Explorer changes the score by the bound flag's weight. */
  lemma ClickScore(t: Toggles, r: Row)
    requires r != ExplorerRow
    ensures BoostScore(Click(t, r)) ==
            if Get(t, Bound(r)) then BoostScore(t) - Weight(Bound(r)) else BoostScore(t) + Weight(Bound(r))
  {
    ClickFlipsOneFlag(t, r);
    var f := Bound(r);
    ScoreStep(t, f);
    if Get(t, f) {
      assert With(t, f, true) == t;
    } else {
      assert With(t, f, false) == t;
    }
  }

  // ---------------------------------------------------------------------------
  // The Explorer row as evidently intended
  // ---------------------------------------------------------------------------

  /**
    The Explorer row's callback as its label promises: kill Explorer when
    the switch turns on, restart it when it turns off.
   */
  function RowCallIntended(t: Toggles, r: Row, on: bool): (Action, bool)
  {
    if r == ExplorerRow then (if on then KillExplorer else RestartExplorer, on)
    else RowCall(t, r, on)
  }

  /** Click on row `r` with the intended Explorer callback. */
  function ClickIntended(t: Toggles, r: Row): Toggles
  {
    var t1 := Flipped(t, r);
    var call := RowCallIntended(t1, r, Get(t1, Bound(r)));
    Writeback(t1, call.0, call.1)
  }

  /** With the intended callback every row, Explorer included, negates exactly its bound flag. */
  lemma ClickIntendedFlipsEveryRow(t: Toggles, r: Row)
    ensures ClickIntended(t, r) == With(t, Bound(r), !Get(t, Bound(r)))
  {
    if r == ExplorerRow {
      assert ClickIntended(t, r) == With(t, ExplorerKilled, ExplorerKilled !in t);
    } else {
      ClickFlipsOneFlag(t, r);
    }
  }

  /** With the intended callback, a click on any row moves the score by the bound flag's weight. */
  lemma ClickIntendedScore(t: Toggles, r: Row)
    ensures BoostScore(ClickIntended(t, r)) ==
            if Get(t, Bound(r)) then BoostScore(t) - Weight(Bound(r)) else BoostScore(t) + Weight(Bound(r))
  {
    ClickIntendedFlipsEveryRow(t, r);
    var f := Bound(r);
    ScoreStep(t, f);
    if Get(t, f) {
      assert With(t, f, true) == t;
    } else {
      assert With(t, f, false) == t;
    }
  }
}
