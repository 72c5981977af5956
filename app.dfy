/**
  The application state of the optimiser and every operation that changes
  it: the notification queue, the Boost toggles and their actions, the
  once-per-frame score refresh and notification sweep, the Deep Clean job,
  the game launcher, the music player's transport and the sidebar tabs.

  The class holds the fields of the program's single global state object
  (and the player's open-device flag). Every OS call is gone: where the
  program branches on one, its outcome is a parameter.
 */
module App {
  import opened Palette
  import opened Wrappers
  import opened Boost
  import opened Notify
  import Cleanup
  import Player

  /**
    The text fields holding a path are 512-byte buffers of narrow chars.
    Throughout the model a `char` stands for one such byte, so this limit
    and every other length here is a count of bytes.
   */
  const PathCapacity := 511

  /** What a path buffer keeps of `text`: the longest prefix that fits. */
  function Clip(text: string): (r: string)
    ensures |r| <= PathCapacity
    ensures |r| <= |text| && r == text[..|r|]
    ensures |text| <= PathCapacity ==> r == text
    ensures |text| > PathCapacity ==> |r| == PathCapacity
  {
    if |text| <= PathCapacity then text else text[..PathCapacity]
  }

  /** The header title of each sidebar tab. */
  function TabTitle(tab: int): (title: string)
    requires 0 <= tab < 4
    ensures title != []
  {
    ["Boost Engine", "Deep Clean", "Game Launch", "Phonk Player"][tab]
  }

  /** The header tells the four tabs apart. */
  lemma TabTitlesDistinct(i: int, j: int)
    requires 0 <= i < 4 && 0 <= j < 4
    requires TabTitle(i) == TabTitle(j)
    ensures i == j
  {
  }

  class AppState {
    // Navigation: 0 = Boost, 1 = Clean, 2 = Launch, 3 = Phonk
    var activeTab: int

    // Boost toggles
    var explorerKilled: bool
    var highPerfPower: bool
    var animsDisabled: bool
    var gameModeOn: bool
    var cpuBoost: bool
    var superfetchOff: bool
    var hpetOn: bool
    var gameBarOff: bool
    var nvidiaBoost: bool
    var networkOpt: bool

    // Boost status, refreshed while the Boost tab is shown
    var boostScore: int

    // Clean
    var cleanTempDone: bool
    var cleanWinTempDone: bool
    var cleanPrefetchDone: bool
    var cleanDnsDone: bool
    var cleanLog: string
    var cleanRunning: bool

    // Launch
    var gamePath: string
    var launchReady: bool
    var launchStatus: string

    // Music player; `phonkOpen` is the player's own "device open" flag
    var phonkPlaying: bool
    var phonkPath: string
    var phonkLoaded: bool
    var phonkTitle: string
    var phonkLoop: bool
    var phonkOpen: bool

    // Status notifications, oldest first
    var notifs: seq<Notif>

    /** The field behind one flag. */
    predicate Field(f: Flag)
      reads this
    {
      match f
      case ExplorerKilled => explorerKilled
      case HighPerfPower => highPerfPower
      case AnimsDisabled => animsDisabled
      case GameModeOn => gameModeOn
      case CpuBoost => cpuBoost
      case SuperfetchOff => superfetchOff
      case HpetOn => hpetOn
      case GameBarOff => gameBarOff
      case NvidiaBoost => nvidiaBoost
      case NetworkOpt => networkOpt
    }

    /** The toggle fields as a snapshot: the flags that are on. */
    function Flags(): Toggles
      reads this
    {
      set f: Flag | Field(f)
    }

    /**
      What holds between events: a tab is selected, Explorer has never been
      killed (no event reaches KillExplorer), every toast is still counting
      down, no clean job is in flight, and the player only plays an open
      track and only opens a loaded one.
     */
    ghost predicate Valid()
      reads this
    {
      && 0 <= activeTab < 4
      && !explorerKilled
      && AllLive(notifs)
      && !cleanRunning
      && (phonkPlaying ==> phonkOpen)
      && (phonkOpen ==> phonkLoaded)
    }

    constructor ()
      ensures Valid()
      ensures activeTab == 0 && Flags() == AllOff && boostScore == 0
      ensures !cleanTempDone && !cleanWinTempDone && !cleanPrefetchDone && !cleanDnsDone
      ensures cleanLog == "" && !cleanRunning
      ensures gamePath == "" && !launchReady && launchStatus == "Browse for your game .exe"
      ensures !phonkPlaying && phonkPath == "" && !phonkLoaded && phonkTitle == "No track loaded"
      ensures !phonkLoop && !phonkOpen
      ensures notifs == []
    {
      activeTab := 0;
      explorerKilled, highPerfPower, animsDisabled, gameModeOn, cpuBoost := false, false, false, false, false;
      superfetchOff, hpetOn, gameBarOff, nvidiaBoost, networkOpt := false, false, false, false, false;
      boostScore := 0;
      cleanTempDone, cleanWinTempDone, cleanPrefetchDone, cleanDnsDone := false, false, false, false;
      cleanLog := "";
      cleanRunning := false;
      gamePath := "";
      launchReady := false;
      launchStatus := "Browse for your game .exe";
      phonkPlaying := false;
      phonkPath := "";
      phonkLoaded := false;
      phonkTitle := "No track loaded";
      phonkLoop := false;
      phonkOpen := false;
      notifs := [];
    }

    // -------------------------------------------------------------------------
    // Notification queue
    // -------------------------------------------------------------------------

    /** Append a toast with a fresh 3-second countdown. */
    method PushNotif(msg: string, col: Tint)
      modifies this`notifs
      ensures notifs == old(notifs) + [Fresh(msg, col)]
      ensures AllLive(old(notifs)) ==> AllLive(notifs)
    {
      if AllLive(notifs) {
        PushKeepsLive(notifs, msg, col);
      }
      notifs := notifs + [Fresh(msg, col)];
    }

    /**
      Start-up, after the state object is built and before the first
      frame: the blue welcome toast.
     */
    method Startup()
      requires Valid()
      modifies this`notifs
      ensures Valid()
      ensures notifs == old(notifs) + [Fresh("X-OPT Engine ready — apply boosts from the sidebar", AccentBlue)]
    {
      PushNotif("X-OPT Engine ready — apply boosts from the sidebar", AccentBlue);
    }

    /** A freshly built state followed by start-up holds exactly the welcome toast. */
    static method Boot() returns (app: AppState)
      ensures fresh(app) && app.Valid()
      ensures app.notifs == [Fresh("X-OPT Engine ready — apply boosts from the sidebar", AccentBlue)]
      ensures app.activeTab == 0 && app.Flags() == AllOff && app.boostScore == 0
    {
      app := new AppState();
      app.Startup();
    }

    /**
      The per-frame sweep: lower every countdown by the frame time `dt`
      (newest first, as the toasts are drawn), then erase the toasts whose
      countdown is no longer positive.
     */
    method RenderNotifs(dt: int)
      modifies this`notifs
      ensures notifs == Swept(old(notifs), dt)
      ensures AllLive(notifs)
    {
      var i := |notifs|;
      while i > 0
        invariant 0 <= i <= |notifs| == |old(notifs)|
        invariant forall k :: 0 <= k < i ==> notifs[k] == old(notifs)[k]
        invariant forall k :: i <= k < |notifs| ==> notifs[k] == old(notifs)[k].(timer := old(notifs)[k].timer - dt)
      {
        i := i - 1;
        notifs := notifs[i := notifs[i].(timer := notifs[i].timer - dt)];
      }
      assert notifs == Decremented(old(notifs), dt);
      var kept: seq<Notif> := [];
      var j := 0;
      while j < |notifs|
        invariant 0 <= j <= |notifs|
        invariant kept == Survivors(notifs[..j])
      {
        assert notifs[..j + 1][..j] == notifs[..j];
        if notifs[j].timer > 0 {
          kept := kept + [notifs[j]];
        }
        j := j + 1;
      }
      assert notifs[..j] == notifs;
      notifs := kept;
    }

    // -------------------------------------------------------------------------
    // Boost toggles and their actions
    // -------------------------------------------------------------------------

    /** Widget::Toggle on a click: negate the bound field. */
    method Toggle(f: Flag)
      modifies this`explorerKilled, this`highPerfPower, this`animsDisabled, this`gameModeOn,
               this`cpuBoost, this`superfetchOff, this`hpetOn, this`gameBarOff,
               this`nvidiaBoost, this`networkOpt
      ensures Flags() == With(old(Flags()), f, !Get(old(Flags()), f))
    {
      match f
      case ExplorerKilled => explorerKilled := !explorerKilled;
      case HighPerfPower => highPerfPower := !highPerfPower;
      case AnimsDisabled => animsDisabled := !animsDisabled;
      case GameModeOn => gameModeOn := !gameModeOn;
      case CpuBoost => cpuBoost := !cpuBoost;
      case SuperfetchOff => superfetchOff := !superfetchOff;
      case HpetOn => hpetOn := !hpetOn;
      case GameBarOff => gameBarOff := !gameBarOff;
      case NvidiaBoost => nvidiaBoost := !nvidiaBoost;
      case NetworkOpt => networkOpt := !networkOpt;
    }

    /** Kill Explorer: mark it killed and say so. */
    method KillExplorer()
      modifies this`explorerKilled, this`notifs
      ensures Flags() == With(old(Flags()), ExplorerKilled, true)
      ensures notifs == old(notifs) + [Fresh("Explorer killed — taskbar hidden", AccentOrange)]
      ensures AllLive(old(notifs)) ==> AllLive(notifs)
    {
      explorerKilled := true;
      PushNotif("Explorer killed — taskbar hidden", AccentOrange);
    }

    /** Restart Explorer: mark it running and say so. */
    method RestartExplorer()
      modifies this`explorerKilled, this`notifs
      ensures Flags() == With(old(Flags()), ExplorerKilled, false)
      ensures notifs == old(notifs) + [Fresh("Explorer restarted", AccentGreen)]
      ensures AllLive(old(notifs)) ==> AllLive(notifs)
    {
      explorerKilled := false;
      PushNotif("Explorer restarted", AccentGreen);
    }

    /** Restart Explorer if it is marked killed, kill it otherwise. */
    method ToggleExplorer()
      modifies this`explorerKilled, this`notifs
      ensures Flags() == With(old(Flags()), ExplorerKilled, !Get(old(Flags()), ExplorerKilled))
      ensures var n := Notice(ExplorerToggleChoice(old(Flags())), false);
              notifs == old(notifs) + [Fresh(n.0, n.1)]
      ensures AllLive(old(notifs)) ==> AllLive(notifs)
    {
      if explorerKilled {
        RestartExplorer();
      } else {
        KillExplorer();
      }
    }

    /** Switch the Xbox Game Bar on or off; its flag records that it is off. */
    method SetGameBar(on: bool)
      modifies this`gameBarOff, this`notifs
      ensures Flags() == With(old(Flags()), GameBarOff, !on)
      ensures var n := Notice(Action.SetGameBar, on); notifs == old(notifs) + [Fresh(n.0, n.1)]
      ensures AllLive(old(notifs)) ==> AllLive(notifs)
    {
      gameBarOff := !on;
      var n := Notice(Action.SetGameBar, on);
      PushNotif(n.0, n.1);
    }

    /**
      Call action `a` with argument `arg`. The OS work behind it is opaque;
      what remains is its write-back into the flags and its notification.
     */
    method Perform(a: Action, arg: bool)
      modifies this`explorerKilled, this`gameBarOff, this`notifs
      ensures Flags() == Writeback(old(Flags()), a, arg)
      ensures var n := Notice(a, arg); notifs == old(notifs) + [Fresh(n.0, n.1)]
      ensures AllLive(old(notifs)) ==> AllLive(notifs)
    {
      if a == Action.KillExplorer {
        KillExplorer();
      } else if a == Action.RestartExplorer {
        RestartExplorer();
      } else if a == Action.SetGameBar {
        SetGameBar(arg);
      } else {
        ghost var t := Flags();
        var n := Notice(a, arg);
        PushNotif(n.0, n.1);
        assert Flags() == t;
      }
    }

    /**
      What a Boost row does when clicked: the switch flips the bound flag,
      then the row's callback runs with the new value.
     */
    method BoostRow(r: Row)
      modifies this`explorerKilled, this`highPerfPower, this`animsDisabled, this`gameModeOn,
               this`cpuBoost, this`superfetchOff, this`hpetOn, this`gameBarOff,
               this`nvidiaBoost, this`networkOpt, this`notifs
      ensures Flags() == Click(old(Flags()), r)
      ensures var n := ClickNotice(old(Flags()), r); notifs == old(notifs) + [Fresh(n.0, n.1)]
      ensures AllLive(old(notifs)) ==> AllLive(notifs)
      ensures !old(explorerKilled) ==> !explorerKilled
    {
      ghost var t := Flags();
      Toggle(Bound(r));
      var call := RowCall(Flags(), r, Get(Flags(), Bound(r)));
      Perform(call.0, call.1);
      if !old(explorerKilled) {
        ExplorerNeverKilled(t, r);
        assert ExplorerKilled !in Flags();
      }
    }

    /** A click on a Boost row, between events: the invariant is kept. */
    method ClickRow(r: Row)
      requires Valid()
      modifies this`explorerKilled, this`highPerfPower, this`animsDisabled, this`gameModeOn,
               this`cpuBoost, this`superfetchOff, this`hpetOn, this`gameBarOff,
               this`nvidiaBoost, this`networkOpt, this`notifs
      ensures Valid()
      ensures Flags() == Click(old(Flags()), r)
      ensures var n := ClickNotice(old(Flags()), r); notifs == old(notifs) + [Fresh(n.0, n.1)]
    {
      BoostRow(r);
    }

    /** The score header: recompute the score from the flags. */
    method RefreshScore()
      modifies this`boostScore
      ensures boostScore == BoostScore(Flags())
      ensures 0 <= boostScore <= 100
    {
      boostScore := BoostScore(Flags());
    }

    /**
      The state changes of one frame: the Boost panel, drawn only on its
      tab, refreshes the score; the toasts are then swept.
     */
    method Frame(dt: int)
      requires Valid()
      modifies this`boostScore, this`notifs
      ensures Valid()
      ensures boostScore == if activeTab == 0 then BoostScore(Flags()) else old(boostScore)
      ensures notifs == Swept(old(notifs), dt)
    {
      if activeTab == 0 {
        RefreshScore();
      }
      RenderNotifs(dt);
    }

    // -------------------------------------------------------------------------
    // Deep Clean
    // -------------------------------------------------------------------------

    /** The log sink: append the line and a newline. */
    method Log(line: string)
      modifies this`cleanLog
      ensures cleanLog == old(cleanLog) + line + "\n"
    {
      cleanLog := cleanLog + line + "\n";
    }

    /**
      The log sink, seen from the job: after `lines` have been logged on top
      of `base`, logging `line` leaves the sink's rendering of all of them.
     */
    method LogNext(line: string, ghost base: string, ghost lines: seq<string>)
      requires cleanLog == base + Cleanup.Sink(lines)
      modifies this`cleanLog
      ensures cleanLog == base + Cleanup.Sink(lines + [line])
    {
      Log(line);
      Cleanup.SinkSnoc(lines, line);
    }

    /**
      The unconditional part of the job, after the temporary folder: clear
      the Windows temporary folder, then the prefetch folder, then flush
      the DNS cache. Each step adds its count to `total`, then sets its
      done flag, then logs its line after the `lines` already logged on top
      of `base`.
     */
    method ClearSystemFolders(start: nat, winOutcomes: seq<bool>, prefetchOutcomes: seq<bool>,
                              ghost base: string, ghost lines: seq<string>) returns (total: nat)
      requires cleanLog == base + Cleanup.Sink(lines)
      modifies this`cleanWinTempDone, this`cleanPrefetchDone, this`cleanDnsDone, this`cleanLog
      ensures var n2, n3 := Cleanup.CountTrue(winOutcomes), Cleanup.CountTrue(prefetchOutcomes);
              && total == start + n2 + n3
              && cleanLog == base + Cleanup.Sink(lines + [Cleanup.FolderLine(Cleanup.WinTempPrefix, n2),
                                                          Cleanup.FolderLine(Cleanup.PrefetchPrefix, n3),
                                                          Cleanup.DnsLine])
      ensures cleanWinTempDone && cleanPrefetchDone && cleanDnsDone
    {
      var n2 := Cleanup.DeleteTempFolder(winOutcomes);
      total := start + n2;
      cleanWinTempDone := true;
      var l2 := Cleanup.FolderLine(Cleanup.WinTempPrefix, n2);
      LogNext(l2, base, lines);

      var n3 := Cleanup.DeleteTempFolder(prefetchOutcomes);
      total := total + n3;
      cleanPrefetchDone := true;
      var l3 := Cleanup.FolderLine(Cleanup.PrefetchPrefix, n3);
      LogNext(l3, base, lines + [l2]);

      cleanDnsDone := true;
      LogNext(Cleanup.DnsLine, base, lines + [l2] + [l3]);
      assert lines + [l2] + [l3] + [Cleanup.DnsLine] == lines + [l2, l3, Cleanup.DnsLine];
    }

    /**
      The folder part of the cleanup job: clear the temporary folder (only
      if it could be located), then the rest as above, logging a line for
      each. The outcomes of the individual removals are the parameters.
     */
    method ClearFolders(tempFound: bool, tempOutcomes: seq<bool>, winOutcomes: seq<bool>,
                        prefetchOutcomes: seq<bool>) returns (total: nat)
      modifies this`cleanTempDone, this`cleanWinTempDone, this`cleanPrefetchDone,
               this`cleanDnsDone, this`cleanLog
      ensures var n1, n2, n3 := Cleanup.CountTrue(tempOutcomes), Cleanup.CountTrue(winOutcomes),
                                Cleanup.CountTrue(prefetchOutcomes);
              && total == Cleanup.JobTotal(tempFound, n1, n2, n3)
              && cleanLog == old(cleanLog) + Cleanup.Sink(Cleanup.FolderLines(tempFound, n1, n2, n3))
      ensures cleanTempDone == (old(cleanTempDone) || tempFound)
      ensures cleanWinTempDone && cleanPrefetchDone && cleanDnsDone
    {
      total := 0;
      ghost var base := cleanLog;
      ghost var head: seq<string> := [];
      assert cleanLog == base + Cleanup.Sink(head);
      if tempFound {
        var n1 := Cleanup.DeleteTempFolder(tempOutcomes);
        total := total + n1;
        cleanTempDone := true;
        LogNext(Cleanup.FolderLine(Cleanup.TempPrefix, n1), base, head);
        head := [Cleanup.FolderLine(Cleanup.TempPrefix, n1)];
      }
      total := ClearSystemFolders(total, winOutcomes, prefetchOutcomes, base, head);
      Cleanup.FolderLinesInOrder(tempFound, Cleanup.CountTrue(tempOutcomes), Cleanup.CountTrue(winOutcomes),
                                 Cleanup.CountTrue(prefetchOutcomes), head);
    }

    /**
      The cleanup job, run to completion: the folders and the DNS cache,
      then the total in the log and one summary toast.
     */
    method CleanTempFiles(tempFound: bool, tempOutcomes: seq<bool>, winOutcomes: seq<bool>,
                          prefetchOutcomes: seq<bool>)
      modifies this`cleanRunning, this`cleanTempDone, this`cleanWinTempDone,
               this`cleanPrefetchDone, this`cleanDnsDone, this`cleanLog, this`notifs
      ensures var n1, n2, n3 := Cleanup.CountTrue(tempOutcomes), Cleanup.CountTrue(winOutcomes),
                                Cleanup.CountTrue(prefetchOutcomes);
              && cleanLog == old(cleanLog) + Cleanup.Sink(Cleanup.JobLines(tempFound, n1, n2, n3))
              && notifs == old(notifs)
                 + [Fresh(Cleanup.CompletionMessage(Cleanup.JobTotal(tempFound, n1, n2, n3)), AccentGreen)]
      ensures cleanTempDone == (old(cleanTempDone) || tempFound)
      ensures cleanWinTempDone && cleanPrefetchDone && cleanDnsDone
      ensures !cleanRunning
      ensures AllLive(old(notifs)) ==> AllLive(notifs)
    {
      cleanRunning := true;
      ghost var base := cleanLog;
      var total := ClearFolders(tempFound, tempOutcomes, winOutcomes, prefetchOutcomes);
      ghost var lines := Cleanup.FolderLines(tempFound, Cleanup.CountTrue(tempOutcomes),
                                             Cleanup.CountTrue(winOutcomes), Cleanup.CountTrue(prefetchOutcomes));
      LogNext(Cleanup.TotalLine(total), base, lines);
      PushNotif(Cleanup.CompletionMessage(total), AccentGreen);
      cleanRunning := false;
    }

    /**
      The "Clean Now" button, offered only while no job runs (which Valid
      records): clear the log and the four done flags, then run the job.
     */
    method CleanNow(tempFound: bool, tempOutcomes: seq<bool>, winOutcomes: seq<bool>,
                    prefetchOutcomes: seq<bool>)
      requires Valid()
      modifies this`cleanRunning, this`cleanTempDone, this`cleanWinTempDone,
               this`cleanPrefetchDone, this`cleanDnsDone, this`cleanLog, this`notifs
      ensures Valid()
      ensures var n1, n2, n3 := Cleanup.CountTrue(tempOutcomes), Cleanup.CountTrue(winOutcomes),
                                Cleanup.CountTrue(prefetchOutcomes);
              && cleanLog == Cleanup.Sink(Cleanup.JobLines(tempFound, n1, n2, n3))
              && notifs == old(notifs)
                 + [Fresh(Cleanup.CompletionMessage(Cleanup.JobTotal(tempFound, n1, n2, n3)), AccentGreen)]
      ensures cleanTempDone == tempFound
      ensures cleanWinTempDone && cleanPrefetchDone && cleanDnsDone
    {
      cleanLog := "";
      cleanTempDone, cleanWinTempDone, cleanPrefetchDone, cleanDnsDone := false, false, false, false;
      CleanTempFiles(tempFound, tempOutcomes, winOutcomes, prefetchOutcomes);
    }

    // -------------------------------------------------------------------------
    // Game launcher
    // -------------------------------------------------------------------------

    /** Typing in the game path field; the buffer keeps what fits. */
    method EditGamePath(text: string)
      requires Valid()
      modifies this`gamePath
      ensures Valid()
      ensures gamePath == Clip(text)
    {
      gamePath := Clip(text);
    }

    /** The Browse button; `chosen` is the file the dialog returned, if any. */
    method Browse(chosen: Option<string>)
      requires Valid()
      modifies this`gamePath, this`launchReady, this`launchStatus, this`notifs
      ensures Valid()
      ensures chosen.None? ==>
                gamePath == old(gamePath) && launchReady == old(launchReady)
                && launchStatus == old(launchStatus) && notifs == old(notifs)
      ensures chosen.Some? ==>
                gamePath == Clip(chosen.value) && launchReady && launchStatus == "Ready to launch!"
                && notifs == old(notifs) + [Fresh("Game selected: " + chosen.value, AccentGreen)]
    {
      if chosen.Some? {
        gamePath := Clip(chosen.value);
        launchReady := true;
        launchStatus := "Ready to launch!";
        PushNotif("Game selected: " + chosen.value, AccentGreen);
      }
    }

    /**
      Launch the game at `gamePath` with high priority; `spawned` is whether
      the OS started the process. With no path set nothing is attempted and
      the status line is left as it was.
     */
    method LaunchGameWithPriority(spawned: bool)
      requires Valid()
      modifies this`launchStatus, this`notifs
      ensures Valid()
      ensures gamePath == [] ==>
                launchStatus == old(launchStatus)
                && notifs == old(notifs) + [Fresh("No game path set!", AccentRed)]
      ensures gamePath != [] && spawned ==>
                launchStatus == "Launched with HIGH priority!"
                && notifs == old(notifs) + [Fresh("Game launched with HIGH priority class", AccentGreen)]
      ensures gamePath != [] && !spawned ==>
                launchStatus == "Launch failed — check path"
                && notifs == old(notifs) + [Fresh("Launch failed! Check the path.", AccentRed)]
    {
      if gamePath == [] {
        PushNotif("No game path set!", AccentRed);
        return;
      }
      if spawned {
        launchStatus := "Launched with HIGH priority!";
        PushNotif("Game launched with HIGH priority class", AccentGreen);
      } else {
        launchStatus := "Launch failed — check path";
        PushNotif("Launch failed! Check the path.", AccentRed);
      }
    }

    // -------------------------------------------------------------------------
    // Music player
    // -------------------------------------------------------------------------

    /** Open a track: the device is open, the track loaded, its stem the title. */
    method PhonkOpen(path: string)
      requires Valid()
      modifies this`phonkOpen, this`phonkTitle, this`phonkLoaded
      ensures Valid()
      ensures phonkOpen && phonkLoaded
      ensures phonkTitle == Player.Stem(path)
    {
      phonkOpen := true;
      phonkTitle := Player.Stem(path);
      phonkLoaded := true;
    }

    /** Play: starts only if a track is open. */
    method PhonkPlay()
      requires Valid()
      modifies this`phonkPlaying
      ensures Valid()
      ensures phonkPlaying == (old(phonkPlaying) || phonkOpen)
    {
      if !phonkOpen {
        return;
      }
      phonkPlaying := true;
    }

    method PhonkPause()
      requires Valid()
      modifies this`phonkPlaying
      ensures Valid()
      ensures !phonkPlaying
    {
      phonkPlaying := false;
    }

    /** Stop and close the device; the track stays loaded. */
    method PhonkStop()
      requires Valid()
      modifies this`phonkPlaying, this`phonkOpen
      ensures Valid()
      ensures !phonkPlaying && !phonkOpen
    {
      phonkPlaying := false;
      phonkOpen := false;
    }

    /** Typing in the track path field; the buffer keeps what fits. */
    method EditTrackPath(text: string)
      requires Valid()
      modifies this`phonkPath
      ensures Valid()
      ensures phonkPath == Clip(text)
    {
      phonkPath := Clip(text);
    }

    /** The Load button; `chosen` is the file the dialog returned, if any. */
    method LoadButton(chosen: Option<string>)
      requires Valid()
      modifies this`phonkPlaying, this`phonkOpen, this`phonkPath, this`phonkTitle,
               this`phonkLoaded, this`notifs
      ensures Valid()
      ensures chosen.None? ==> unchanged(this)
      ensures chosen.Some? ==>
                && phonkPath == Clip(chosen.value) && phonkTitle == Player.Stem(chosen.value)
                && phonkOpen && phonkLoaded && !phonkPlaying
                && notifs == old(notifs) + [Fresh("Track loaded: " + chosen.value, AccentPurple)]
    {
      if chosen.Some? {
        PhonkStop();
        phonkPath := Clip(chosen.value);
        PhonkOpen(chosen.value);
        PushNotif("Track loaded: " + chosen.value, AccentPurple);
      }
    }

    /** The Loop button flips looping. */
    method LoopButton()
      requires Valid()
      modifies this`phonkLoop
      ensures Valid()
      ensures phonkLoop == !old(phonkLoop)
    {
      phonkLoop := !phonkLoop;
    }

    /** The rewind button: stop, then reopen and play the loaded track from the start. */
    method PrevButton()
      requires Valid()
      modifies this`phonkPlaying, this`phonkOpen, this`phonkTitle, this`phonkLoaded
      ensures Valid()
      ensures phonkPlaying == phonkLoaded && phonkOpen == phonkLoaded
      ensures phonkLoaded == old(phonkLoaded)
      ensures phonkLoaded ==> phonkTitle == Player.Stem(phonkPath)
      ensures !phonkLoaded ==> phonkTitle == old(phonkTitle)
    {
      PhonkStop();
      if phonkLoaded {
        PhonkOpen(phonkPath);
        PhonkPlay();
      }
    }

    /**
      The play/pause button: open the typed path first if nothing is
      loaded yet, then pause if playing and play otherwise.
     */
    method PlayPauseButton()
      requires Valid()
      modifies this`phonkPlaying, this`phonkOpen, this`phonkTitle, this`phonkLoaded
      ensures Valid()
      ensures var opens := !old(phonkLoaded) && phonkPath != [];
              && phonkOpen == (old(phonkOpen) || opens)
              && phonkLoaded == (old(phonkLoaded) || opens)
              && phonkTitle == (if opens then Player.Stem(phonkPath) else old(phonkTitle))
      ensures phonkPlaying == (!old(phonkPlaying) && phonkOpen)
    {
      if !phonkLoaded && phonkPath != [] {
        PhonkOpen(phonkPath);
      }
      if phonkPlaying {
        PhonkPause();
      } else {
        PhonkPlay();
      }
    }

    /** The skip button: there is no queue, so it stops and says so. */
    method NextButton()
      requires Valid()
      modifies this`phonkPlaying, this`phonkOpen, this`notifs
      ensures Valid()
      ensures !phonkPlaying && !phonkOpen
      ensures notifs == old(notifs) + [Fresh("Next track (no queue — load next manually)", TextSecondary)]
    {
      PhonkStop();
      PushNotif("Next track (no queue — load next manually)", TextSecondary);
    }

    // -------------------------------------------------------------------------
    // Tabs
    // -------------------------------------------------------------------------

    /** A click on sidebar item `i` (the sidebar offers items 0 to 3) selects that tab. */
    method SelectTab(i: int)
      requires Valid()
      requires 0 <= i < 4
      modifies this`activeTab
      ensures Valid()
      ensures activeTab == i
    {
      activeTab := i;
    }
  }
}
