/** The game session driven by the main loop: main menu, pause and inventory
    overlays, the simulation gate, level completion, the death screen with its
    one-shot death cue, restart, and keyboard handling. The simulation itself
    (player movement, enemies, projectiles, items, world building) is supplied
    from outside as the outcome of each frame. */
module Game {
  import opened Hearts
  import opened Controls
  import opened Effects

  datatype Option<T> = None | Some(value: T)

  /** Game constants not fixed in the main loop: SPEED and SCREEN_WIDTH. */
  datatype Config = Config(speed: int, screenWidth: int)

  /** The level a run starts on (also the module-level value the HUD reads). */
  const InitialLevel: int := 1

  const IntroFadeSpeed: int := 4
  const DeathFadeSpeed: int := 4

  /** What the main loop reads and writes of the player. */
  datatype Player = Player(health: int, score: int, alive: bool)

  /** The main loop's variables. modulePlayer and playerRebound record the
      module-level player object: main() starts with it and mutates it until it
      first rebinds its own player variable, after which the module-level
      object keeps the values it had at that moment. */
  datatype SessionState = SessionState(
    level: int,
    startGame: bool,
    pauseGame: bool,
    inventoryScreen: bool,
    startIntro: bool,
    pD: bool,
    run: bool,
    held: Held,
    levelComplete: bool,
    player: Player,
    playerRebound: bool,
    modulePlayer: Player,
    introCounter: int,
    deathCounter: int)

  /** What the parts outside the main loop decide during one frame: the button
      clicks, the player after the simulation step and whether it reached the
      exit, the players of the worlds built on level completion and on restart,
      and the window events of the frame. */
  datatype FrameInput = FrameInput(
    startClicked: bool,
    exitClicked: bool,
    resumeClicked: bool,
    inventoryResumeClicked: bool,
    restartClicked: bool,
    stepped: Player,
    reachedExit: bool,
    nextLevelPlayer: Player,
    restartPlayer: Player,
    events: seq<Event>)

  datatype Screen = MainMenu | PauseMenu | InventoryMenu | Playing

  /** The HUD values: hearts, level number and score. */
  datatype HudView = HudView(hearts: seq<Heart>, level: int, score: int)

  /** What a frame showed and emitted besides its new state. The hud is the
      intended HUD, built from main()'s own level and player; what draw_info
      actually reads is HudAsWritten. */
  datatype FrameReport = FrameReport(
    screen: Screen,
    intent: Option<Intent>,
    hud: Option<HudView>,
    deathCue: bool,
    levelUp: bool,
    restarted: bool)

  datatype Outcome = Outcome(next: SessionState, report: FrameReport)

  /** The variables before the first frame. */
  function Initial(first: Player): SessionState
  {
    SessionState(InitialLevel, false, false, false, false, true, true,
                 Held(false, false, false, false), false,
                 first, false, first, 0, 0)
  }

  /** The module-level player object as the state records it. */
  function ModulePlayer(s: SessionState): Player
  {
    if s.playerRebound then s.modulePlayer else s.player
  }

  /** resume(): leave any overlay; nothing else changes. */
  function Resume(s: SessionState): (r: SessionState)
    ensures !r.pauseGame && !r.inventoryScreen
    ensures r.(pauseGame := s.pauseGame, inventoryScreen := s.inventoryScreen) == s
  {
    s.(pauseGame := false, inventoryScreen := false)
  }

  /** main() binds its player variable to a new object. */
  function Rebind(s: SessionState, p: Player): (r: SessionState)
    ensures r.player == p && r.playerRebound
    ensures ModulePlayer(r) == ModulePlayer(s)
  {
    s.(player := p, playerRebound := true, modulePlayer := ModulePlayer(s))
  }

  /** The HUD as intended: the session's level and player. */
  function Hud(level: int, p: Player): HudView
  {
    HudView(HeartBar(p.health), level, p.score)
  }

  /** The HUD as written: it reads the module-level level, which stays 1, and
      the module-level player object. */
  function HudAsWritten(s: SessionState): (h: HudView)
    ensures h.level == InitialLevel
    ensures !s.playerRebound ==> h.hearts == HeartBar(s.player.health) && h.score == s.player.score
  {
    Hud(InitialLevel, ModulePlayer(s))
  }

  // ---------------------------------------------------------------------
  // Keyboard events

  /** a and b agree on everything but the movement flags and the two overlay flags. */
  predicate OnlyInputChanged(a: SessionState, b: SessionState)
  {
    && a.level == b.level && a.startGame == b.startGame && a.startIntro == b.startIntro
    && a.pD == b.pD && a.run == b.run && a.levelComplete == b.levelComplete
    && a.player == b.player && a.playerRebound == b.playerRebound && a.modulePlayer == b.modulePlayer
    && a.introCounter == b.introCounter && a.deathCounter == b.deathCounter
  }

  /** The four keys that open the inventory screen: c, b, i and p. */
  predicate InventoryKey(k: Key)
  {
    k == KeyC || k == KeyB || k == KeyI || k == KeyP
  }

  /** The movement flags after one event: key-down sets, key-up clears. */
  function HeldAfter(h: Held, e: Event): Held
  {
    match e
    case KeyDown(k) => Press(h, k)
    case KeyUp(k) => Release(h, k)
    case _ => h
  }

  /** Escape pressed: opens the pause menu. */
  predicate OpensPause(e: Event)
  {
    e.KeyDown? && e.key == KeyEscape
  }

  /** c, b, i or p pressed: opens the inventory screen. */
  predicate OpensInventory(e: Event)
  {
    e.KeyDown? && InventoryKey(e.key)
  }

  /** Key-down sets a movement flag, Escape sets the pause flag, c, b, i and p
      set the inventory flag; key-up clears a movement flag. */
  function OnEvent(s: SessionState, e: Event): (r: SessionState)
    ensures OnlyInputChanged(s, r)
    ensures r.pauseGame <==> s.pauseGame || (e.KeyDown? && e.key == KeyEscape)
    ensures r.inventoryScreen <==> s.inventoryScreen || (e.KeyDown? && e.key in {KeyC, KeyB, KeyI, KeyP})
    ensures forall m :: IsMovementKey(m) ==>
              (HeldFlag(r.held, m) <==> e == KeyDown(m) || (HeldFlag(s.held, m) && e != KeyUp(m)))
  {
    s.(held := HeldAfter(s.held, e),
       pauseGame := s.pauseGame || OpensPause(e),
       inventoryScreen := s.inventoryScreen || OpensInventory(e))
  }

  /** A proof step for Session.PressKey: a key-down is the held-flag update
      followed by the overlay update. */
  lemma KeyDownInTwoSteps(s: SessionState, k: Key)
    ensures OnEvent(s, KeyDown(k))
            == s.(held := Press(s.held, k)).(pauseGame := s.pauseGame || k == KeyEscape,
                                             inventoryScreen := s.inventoryScreen || InventoryKey(k))
  {
  }

  /** The events of one frame, handled in order. Events touch only the
      movement flags and can set, never clear, the two overlay flags. */
  function ApplyEvents(s: SessionState, es: seq<Event>): (r: SessionState)
    ensures OnlyInputChanged(s, r)
    ensures s.pauseGame ==> r.pauseGame
    ensures s.inventoryScreen ==> r.inventoryScreen
    decreases |es|
  {
    if es == [] then s else OnEvent(ApplyEvents(s, es[..|es| - 1]), es[|es| - 1])
  }

  /** A movement key pressed during a frame stays held through the frame's
      later events unless one of them releases it. */
  lemma {:induction false} HeldUntilReleased(s: SessionState, k: Key, es: seq<Event>)
    requires IsMovementKey(k)
    requires forall i :: 0 <= i < |es| ==> es[i] != KeyUp(k)
    ensures HeldFlag(ApplyEvents(s, [KeyDown(k)] + es).held, k)
    decreases |es|
  {
    if es == [] {
      assert [KeyDown(k)] + es == [KeyDown(k)];
      assert [KeyDown(k)][..0] == [];
    } else {
      var all := [KeyDown(k)] + es;
      assert all[..|all| - 1] == [KeyDown(k)] + es[..|es| - 1];
      HeldUntilReleased(s, k, es[..|es| - 1]);
    }
  }

  /** A movement key released during a frame stays released through the
      frame's later events unless one of them presses it again. */
  lemma {:induction false} ReleasedUntilPressed(s: SessionState, k: Key, es: seq<Event>)
    requires IsMovementKey(k)
    requires forall i :: 0 <= i < |es| ==> es[i] != KeyDown(k)
    ensures !HeldFlag(ApplyEvents(s, [KeyUp(k)] + es).held, k)
    decreases |es|
  {
    if es == [] {
      assert [KeyUp(k)] + es == [KeyUp(k)];
      assert [KeyUp(k)][..0] == [];
    } else {
      var all := [KeyUp(k)] + es;
      assert all[..|all| - 1] == [KeyUp(k)] + es[..|es| - 1];
      ReleasedUntilPressed(s, k, es[..|es| - 1]);
    }
  }

  /** After a frame's events the pause flag is set exactly when it was set
      before or one of the events is an Escape press. */
  lemma {:induction false} PauseIffEscape(s: SessionState, es: seq<Event>)
    ensures ApplyEvents(s, es).pauseGame
            <==> s.pauseGame || exists i :: 0 <= i < |es| && OpensPause(es[i])
    decreases |es|
  {
    if es != [] {
      var init := es[..|es| - 1];
      PauseIffEscape(s, init);
      assert forall i :: 0 <= i < |init| ==> init[i] == es[i];
      if exists i :: 0 <= i < |es| && OpensPause(es[i]) {
        var i :| 0 <= i < |es| && OpensPause(es[i]);
        if i < |init| {
          assert OpensPause(init[i]);
        }
      }
    }
  }

  /** After a frame's events the inventory flag is set exactly when it was set
      before or one of the events is a c, b, i or p press. */
  lemma {:induction false} InventoryIffItsKeys(s: SessionState, es: seq<Event>)
    ensures ApplyEvents(s, es).inventoryScreen
            <==> s.inventoryScreen || exists i :: 0 <= i < |es| && OpensInventory(es[i])
    decreases |es|
  {
    if es != [] {
      var init := es[..|es| - 1];
      InventoryIffItsKeys(s, init);
      assert forall i :: 0 <= i < |init| ==> init[i] == es[i];
      if exists i :: 0 <= i < |es| && OpensInventory(es[i]) {
        var i :| 0 <= i < |es| && OpensInventory(es[i]);
        if i < |init| {
          assert OpensInventory(init[i]);
        }
      }
    }
  }

  /** A movement flag changes only through events of its own key. */
  lemma {:induction false} FlagOnlyChangesByItsKey(s: SessionState, k: Key, es: seq<Event>)
    requires IsMovementKey(k)
    requires forall i :: 0 <= i < |es| ==> es[i] != KeyUp(k) && es[i] != KeyDown(k)
    ensures HeldFlag(ApplyEvents(s, es).held, k) == HeldFlag(s.held, k)
    decreases |es|
  {
    if es != [] {
      FlagOnlyChangesByItsKey(s, k, es[..|es| - 1]);
    }
  }

  // ---------------------------------------------------------------------
  // The screens of one frame

  /** a and b are in the same game: same level, started, running. */
  predicate SameSession(a: SessionState, b: SessionState)
  {
    a.level == b.level && a.startGame == b.startGame && a.run == b.run
  }

  /** A frame on a menu screen: no simulation, no level change, no death
      handling, and the player is left as it was. */
  predicate Frozen(s: SessionState, o: Outcome)
  {
    && o.report.intent.None? && !o.report.deathCue && !o.report.levelUp && !o.report.restarted
    && o.next.player == s.player && o.next.level == s.level && o.next.pD == s.pD
  }

  /** Main menu: the start button starts the game and the intro and clears
      both overlays; the exit button ends the loop. */
  function MenuFrame(s: SessionState, inp: FrameInput): (o: Outcome)
    ensures o.report.screen == MainMenu && Frozen(s, o)
    ensures o.next.startGame == (s.startGame || inp.startClicked)
    ensures o.next.run == (s.run && !inp.exitClicked)
    ensures inp.startClicked ==> o.next.startIntro && !o.next.pauseGame && !o.next.inventoryScreen
    ensures !inp.startClicked && !inp.exitClicked ==> o.next == s
  {
    var s1 := if inp.startClicked then Resume(s.(startGame := true, startIntro := true)) else s;
    var s2 := if inp.exitClicked then s1.(run := false) else s1;
    Outcome(s2, FrameReport(MainMenu, None, None, false, false, false))
  }

  /** Pause menu: resume or exit. */
  function PauseFrame(s: SessionState, inp: FrameInput): (o: Outcome)
    ensures o.report.screen == PauseMenu && Frozen(s, o)
    ensures o.next.startGame == s.startGame
    ensures o.next.run == (s.run && !inp.exitClicked)
    ensures inp.resumeClicked ==> !o.next.pauseGame && !o.next.inventoryScreen
    ensures !inp.resumeClicked && !inp.exitClicked ==> o.next == s
  {
    var s1 := if inp.resumeClicked then Resume(s) else s;
    var s2 := if inp.exitClicked then s1.(run := false) else s1;
    Outcome(s2, FrameReport(PauseMenu, None, None, false, false, false))
  }

  /** Inventory screen: its resume button only. */
  function InventoryFrame(s: SessionState, inp: FrameInput): (o: Outcome)
    ensures o.report.screen == InventoryMenu && Frozen(s, o)
    ensures o.next.startGame == s.startGame && o.next.run == s.run
    ensures inp.inventoryResumeClicked ==> !o.next.pauseGame && !o.next.inventoryScreen
    ensures !inp.inventoryResumeClicked ==> o.next == s
  {
    var s1 := if inp.inventoryResumeClicked then Resume(s) else s;
    Outcome(s1, FrameReport(InventoryMenu, None, None, false, false, false))
  }

  /** The simulation step: the player becomes what the subsystems made of it,
      and level_complete is what the move reported. */
  function Simulate(s: SessionState, inp: FrameInput): (r: SessionState)
    ensures r.player == inp.stepped && r.levelComplete == inp.reachedExit
    ensures SameSession(s, r) && r.startIntro == s.startIntro && r.pD == s.pD
  {
    s.(player := inp.stepped, levelComplete := inp.reachedExit,
       modulePlayer := if s.playerRebound then s.modulePlayer else inp.stepped)
  }

  /** Level complete: next level, intro again, and the new level's player
      takes over the old player's health and score. */
  function LevelUp(s: SessionState, newPlayer: Player): (r: SessionState)
    ensures r.level == s.level + 1 && r.startIntro
    ensures r.player == newPlayer.(health := s.player.health, score := s.player.score)
    ensures r.pD == s.pD && r.levelComplete == s.levelComplete
  {
    Rebind(s.(level := s.level + 1, startIntro := true),
           newPlayer.(health := s.player.health, score := s.player.score))
  }

  /** The intro fade runs while start_intro is set; on completion it stops and
      its counter is reset. */
  function IntroFade(cfg: Config, s: SessionState): (r: SessionState)
    ensures SameSession(s, r) && r.player == s.player && r.pD == s.pD
    ensures !s.startIntro ==> r == s
    ensures s.startIntro ==> (!r.startIntro <==> s.introCounter + IntroFadeSpeed >= cfg.screenWidth)
    ensures s.startIntro ==> r.introCounter == if r.startIntro then s.introCounter + IntroFadeSpeed else 0
  {
    if !s.startIntro then s
    else
      var c := s.introCounter + IntroFadeSpeed;
      if FadeComplete(c, cfg.screenWidth) then s.(introCounter := 0, startIntro := false)
      else s.(introCounter := c)
  }

  /** Restart after death: same level, the new player keeps only the score,
      the death latch is re-armed and the intro runs again. */
  function Restart(s: SessionState, newPlayer: Player): (r: SessionState)
    ensures r.level == s.level
    ensures r.player == newPlayer.(score := s.player.score)
    ensures r.pD && r.startIntro && r.deathCounter == 0
  {
    Rebind(s.(deathCounter := 0, startIntro := true, pD := true), newPlayer.(score := s.player.score))
  }

  /** The intro fade over k playing frames without a level completion or a
      restart (either sets start_intro again without resetting the counter);
      pause and inventory frames do not advance it. */
  function IntroRun(cfg: Config, s: SessionState, k: nat): (r: SessionState)
    ensures SameSession(s, r) && r.player == s.player
    decreases k
  {
    if k == 0 then s else IntroRun(cfg, IntroFade(cfg, s), k - 1)
  }

  /** Once the intro has stopped, further frames leave it stopped. */
  lemma {:induction false} IntroStaysStopped(cfg: Config, s: SessionState, k: nat)
    requires !s.startIntro
    ensures IntroRun(cfg, s, k) == s
    decreases k
  {
    if k > 0 {
      IntroStaysStopped(cfg, IntroFade(cfg, s), k - 1);
    }
  }

  /** A running intro with counter c is still running after k >= 1 playing
      frames without a level completion or restart exactly when c + 4k is below SCREEN_WIDTH, its counter is then c + 4k,
      and once it has stopped its counter is 0. */
  lemma {:induction false} IntroLastsUntilFadeComplete(cfg: Config, s: SessionState, k: nat)
    requires s.startIntro
    ensures IntroRun(cfg, s, k).startIntro
            <==> k == 0 || s.introCounter + k * IntroFadeSpeed < cfg.screenWidth
    ensures IntroRun(cfg, s, k).introCounter
            == if IntroRun(cfg, s, k).startIntro then s.introCounter + k * IntroFadeSpeed else 0
    decreases k
  {
    if k > 0 {
      var s1 := IntroFade(cfg, s);
      if s1.startIntro {
        IntroLastsUntilFadeComplete(cfg, s1, k - 1);
      } else {
        IntroStaysStopped(cfg, s1, k - 1);
      }
    }
  }

  datatype DeathOutcome = DeathOutcome(next: SessionState, cue: bool, restarted: bool)

  /** Death screen: the death cue fires while the latch is armed, which
      disarms it; the death fade advances, and once it is complete the restart
      button restarts the level. */
  function DeathScreen(cfg: Config, s: SessionState, inp: FrameInput): (d: DeathOutcome)
    ensures SameSession(s, d.next)
    ensures d.cue <==> !s.player.alive && s.pD
    ensures d.restarted
            <==> !s.player.alive && FadeComplete(s.deathCounter + DeathFadeSpeed, cfg.screenWidth) && inp.restartClicked
  {
    if s.player.alive then DeathOutcome(s, false, false)
    else
      var c := s.deathCounter + DeathFadeSpeed;
      var s1 := s.(pD := false, deathCounter := c);
      if FadeComplete(c, cfg.screenWidth) && inp.restartClicked
      then DeathOutcome(Restart(s1, inp.restartPlayer), s.pD, true)
      else DeathOutcome(s1, s.pD, false)
  }

  /** The playing screen: simulate if the player is alive, draw the HUD, then
      handle level completion, the intro fade and the death screen. */
  function PlayFrame(cfg: Config, s: SessionState, inp: FrameInput): (o: Outcome)
    ensures o.report.screen == Playing
    ensures o.report.intent.Some? <==> s.player.alive
    ensures o.report.intent.Some? ==> o.report.intent.value == MoveIntent(s.held, cfg.speed)
    ensures o.next.level == s.level + (if o.report.levelUp then 1 else 0)
    ensures o.report.levelUp <==> if s.player.alive then inp.reachedExit else s.levelComplete
    ensures o.next.startGame == s.startGame && o.next.run == s.run
  {
    var intent := if s.player.alive then Some(MoveIntent(s.held, cfg.speed)) else None;
    var s1 := if s.player.alive then Simulate(s, inp) else s;
    var hud := Hud(s1.level, s1.player);
    var s2 := if s1.levelComplete then LevelUp(s1, inp.nextLevelPlayer) else s1;
    var s3 := IntroFade(cfg, s2);
    var d := DeathScreen(cfg, s3, inp);
    Outcome(d.next, FrameReport(Playing, intent, Some(hud), d.cue, s1.levelComplete, d.restarted))
  }

  /** One iteration of the main loop. The pause flag is tested before the
      inventory flag; the simulation runs only in a started game with both
      overlays off and a living player; events are handled last. */
  function FrameStep(cfg: Config, s: SessionState, inp: FrameInput): (o: Outcome)
    requires s.run
    ensures o.report.screen == PauseMenu <==> s.startGame && s.pauseGame
    ensures o.report.screen == InventoryMenu <==> s.startGame && !s.pauseGame && s.inventoryScreen
    ensures o.report.screen == MainMenu <==> !s.startGame
    ensures o.report.intent.Some? <==> s.startGame && !s.pauseGame && !s.inventoryScreen && s.player.alive
    ensures o.report.intent.Some? ==> o.report.intent.value == MoveIntent(s.held, cfg.speed)
    ensures o.report.screen != Playing ==>
              o.next.player == s.player && o.next.level == s.level && o.next.pD == s.pD
              && !o.report.deathCue && !o.report.levelUp && !o.report.restarted
    ensures o.next.level == s.level + (if o.report.levelUp then 1 else 0)
    ensures s.startGame ==> o.next.startGame
    ensures !o.next.run ==> inp.exitClicked
  {
    var o := if !s.startGame then MenuFrame(s, inp)
             else if s.pauseGame then PauseFrame(s, inp)
             else if s.inventoryScreen then InventoryFrame(s, inp)
             else PlayFrame(cfg, s, inp);
    Outcome(ApplyEvents(o.next, inp.events), o.report)
  }

  /** The death latch over one frame: a cue needs the armed latch; a cue
      disarms it, and only a restart arms it again. */
  lemma DeathLatch(cfg: Config, s: SessionState, inp: FrameInput)
    requires s.run
    ensures FrameStep(cfg, s, inp).report.deathCue ==> s.pD
    ensures FrameStep(cfg, s, inp).report.restarted ==> FrameStep(cfg, s, inp).next.pD
    ensures !FrameStep(cfg, s, inp).report.restarted ==>
              (FrameStep(cfg, s, inp).next.pD ==> s.pD)
              && (FrameStep(cfg, s, inp).report.deathCue ==> !FrameStep(cfg, s, inp).next.pD)
  {
  }

  /** In a playing frame, with p the player after the step and any level-up:
      the level goes up exactly when level_complete is set, the death cue fires
      exactly when p is dead and the latch is armed, and the level restarts
      exactly when p is dead, the death fade completes and restart is clicked. */
  lemma PlayFrameTriggers(cfg: Config, s: SessionState, inp: FrameInput)
    requires s.run && s.startGame && !s.pauseGame && !s.inventoryScreen
    ensures
      var up := if s.player.alive then inp.reachedExit else s.levelComplete;
      var p := if up then inp.nextLevelPlayer else if s.player.alive then inp.stepped else s.player;
      var r := FrameStep(cfg, s, inp).report;
      && (r.levelUp <==> up)
      && (r.deathCue <==> !p.alive && s.pD)
      && (r.restarted <==> !p.alive && s.deathCounter + DeathFadeSpeed >= cfg.screenWidth && inp.restartClicked)
  {
  }

  /** Completing a level with a living new player: the level goes up by one and
      the new player carries the old player's health and score. */
  lemma LevelCompleteCarriesStats(cfg: Config, s: SessionState, inp: FrameInput)
    requires s.run && s.startGame && !s.pauseGame && !s.inventoryScreen && s.player.alive
    requires inp.reachedExit && inp.nextLevelPlayer.alive
    ensures FrameStep(cfg, s, inp).next.level == s.level + 1
    ensures FrameStep(cfg, s, inp).next.player
            == inp.nextLevelPlayer.(health := inp.stepped.health, score := inp.stepped.score)
    ensures FrameStep(cfg, s, inp).report.levelUp && !FrameStep(cfg, s, inp).report.restarted
  {
  }

  /** Restarting after death: same level, the restarted player keeps the old
      score and has the new level's default health, and the latch is re-armed. */
  lemma RestartKeepsLevelAndScore(cfg: Config, s: SessionState, inp: FrameInput)
    requires s.run && s.startGame && !s.pauseGame && !s.inventoryScreen
    requires !s.player.alive && !s.levelComplete
    requires s.deathCounter + DeathFadeSpeed >= cfg.screenWidth && inp.restartClicked
    ensures FrameStep(cfg, s, inp).next.level == s.level
    ensures FrameStep(cfg, s, inp).next.player == inp.restartPlayer.(score := s.player.score)
    ensures FrameStep(cfg, s, inp).next.pD
    ensures FrameStep(cfg, s, inp).report.restarted && FrameStep(cfg, s, inp).report.deathCue == s.pD
  {
  }

  /** After resume in the pause menu, with no overlay key pressed in that frame,
      the next frame simulates again (for a living player). */
  lemma ResumeReturnsToPlay(cfg: Config, s: SessionState, inp: FrameInput)
    requires s.run && s.startGame && s.pauseGame && inp.resumeClicked && !inp.exitClicked
    requires forall i :: 0 <= i < |inp.events| ==> !OpensPause(inp.events[i]) && !OpensInventory(inp.events[i])
    requires s.player.alive
    ensures FrameStep(cfg, FrameStep(cfg, s, inp).next, inp).report.intent.Some?
  {
    var r := Resume(s);
    NoOverlayKeys(r, inp.events);
  }

  /** Events without Escape, c, b, i or p presses leave both overlay flags as they were. */
  lemma {:induction false} NoOverlayKeys(s: SessionState, es: seq<Event>)
    requires forall i :: 0 <= i < |es| ==> !OpensPause(es[i]) && !OpensInventory(es[i])
    ensures ApplyEvents(s, es).pauseGame == s.pauseGame
    ensures ApplyEvents(s, es).inventoryScreen == s.inventoryScreen
    decreases |es|
  {
    if es != [] {
      NoOverlayKeys(s, es[..|es| - 1]);
    }
  }

  // ---------------------------------------------------------------------
  // The HUD (a finding: as written it shows stale values)

  /** As intended, the HUD of a playing frame shows the session's current
      level and the hearts and score of the player after the simulation step. */
  lemma HudShowsSessionPlayer(cfg: Config, s: SessionState, inp: FrameInput)
    requires s.run && s.startGame && !s.pauseGame && !s.inventoryScreen
    ensures FrameStep(cfg, s, inp).report.hud.Some?
    ensures FrameStep(cfg, s, inp).report.hud.value.level == s.level
    ensures FrameStep(cfg, s, inp).report.hud.value.hearts
            == HeartBar(if s.player.alive then inp.stepped.health else s.player.health)
    ensures FrameStep(cfg, s, inp).report.hud.value.score
            == (if s.player.alive then inp.stepped.score else s.player.score)
  {
  }

  /** As written, after one level completion the HUD still shows level 1 and
      the health and score the first player had when the level ended, while
      the session is on level 2 with a player at 20 health and score 5. */
  lemma HudAsWrittenIsStale()
    ensures
      var cfg := Config(5, 800);
      var s0 := Initial(Player(100, 0, true)).(startGame := true);
      var exit := FrameInput(false, false, false, false, false, Player(60, 3, true), true,
                             Player(100, 0, true), Player(100, 0, true), []);
      var s1 := FrameStep(cfg, s0, exit).next;
      var hurt := exit.(stepped := Player(20, 5, true), reachedExit := false);
      var drawn := Simulate(s1, hurt);
      && s1.level == 2
      && HudAsWritten(drawn) == Hud(1, Player(60, 3, true))
      && FrameStep(cfg, s1, hurt).report.hud == Some(Hud(2, Player(20, 5, true)))
  {
  }

  // ---------------------------------------------------------------------
  // Runs of frames

  datatype RunSummary = RunSummary(last: SessionState, cues: nat, restarts: nat, levelUps: nat)

  /** Frames of the main loop, one per input, while it is running. */
  function Run(cfg: Config, s: SessionState, ins: seq<FrameInput>): (r: RunSummary)
    ensures r.cues <= |ins| && r.restarts <= |ins| && r.levelUps <= |ins|
    ensures s.startGame ==> r.last.startGame
    ensures r.last.run ==> s.run
    decreases |ins|
  {
    if ins == [] || !s.run then RunSummary(s, 0, 0, 0)
    else
      var o := FrameStep(cfg, s, ins[0]);
      var rest := Run(cfg, o.next, ins[1..]);
      RunSummary(rest.last,
                 rest.cues + (if o.report.deathCue then 1 else 0),
                 rest.restarts + (if o.report.restarted then 1 else 0),
                 rest.levelUps + (if o.report.levelUp then 1 else 0))
  }

  /** The death cue fires at most once per life: over any run, the cues never
      exceed the restarts plus one for the initially armed latch. */
  lemma {:induction false} DeathCueOncePerLife(cfg: Config, s: SessionState, ins: seq<FrameInput>)
    ensures Run(cfg, s, ins).cues <= Run(cfg, s, ins).restarts + (if s.pD then 1 else 0)
    decreases |ins|
  {
    if ins != [] && s.run {
      DeathLatch(cfg, s, ins[0]);
      DeathCueOncePerLife(cfg, FrameStep(cfg, s, ins[0]).next, ins[1..]);
    }
  }

  /** The level counter changes only by level completions, one at a time. */
  lemma {:induction false} LevelCountsCompletions(cfg: Config, s: SessionState, ins: seq<FrameInput>)
    ensures Run(cfg, s, ins).last.level == s.level + Run(cfg, s, ins).levelUps
    decreases |ins|
  {
    if ins != [] && s.run {
      LevelCountsCompletions(cfg, FrameStep(cfg, s, ins[0]).next, ins[1..]);
    }
  }

  // ---------------------------------------------------------------------
  // The main loop's state as an object

  class Session {
    const cfg: Config
    const introFade: ScreenFade
    const deathFade: ScreenFade
    var level: int
    var startGame: bool
    var pauseGame: bool
    var inventoryScreen: bool
    var startIntro: bool
    var pD: bool
    var run: bool
    var movingLeft: bool
    var movingRight: bool
    var movingUp: bool
    var movingDown: bool
    var levelComplete: bool
    var player: Player
    var playerRebound: bool
    var modulePlayer: Player

    ghost predicate Valid()
    {
      introFade != deathFade && introFade.speed == IntroFadeSpeed && deathFade.speed == DeathFadeSpeed
    }

    function State(): SessionState
      reads this, introFade, deathFade
    {
      SessionState(level, startGame, pauseGame, inventoryScreen, startIntro, pD, run,
                   Held(movingLeft, movingRight, movingUp, movingDown), levelComplete,
                   player, playerRebound, modulePlayer,
                   introFade.fadeCounter, deathFade.fadeCounter)
    }

    /** The game variables before the loop, with the first level's player. */
    constructor (cfg: Config, first: Player)
      ensures Valid() && fresh(introFade) && fresh(deathFade)
      ensures this.cfg == cfg && State() == Initial(first)
    {
      this.cfg := cfg;
      introFade := new ScreenFade(1, IntroFadeSpeed);
      deathFade := new ScreenFade(2, DeathFadeSpeed);
      level := InitialLevel;
      startGame, pauseGame, inventoryScreen, startIntro := false, false, false, false;
      pD, run := true, true;
      movingLeft, movingRight, movingUp, movingDown := false, false, false, false;
      levelComplete := false;
      player, playerRebound, modulePlayer := first, false, first;
    }

    /** One iteration of the main loop. */
    method Frame(inp: FrameInput) returns (report: FrameReport)
      requires Valid() && run
      modifies this, introFade, deathFade
      ensures Valid()
      ensures State() == FrameStep(cfg, old(State()), inp).next
      ensures report == FrameStep(cfg, old(State()), inp).report
    {
      if !startGame {
        report := MenuScreen(inp);
      } else if pauseGame {
        report := PauseScreen(inp);
      } else if inventoryScreen {
        report := InventoryScreen(inp);
      } else {
        report := PlayScreen(inp);
      }
      HandleEvents(inp.events);
    }

    method MenuScreen(inp: FrameInput) returns (report: FrameReport)
      requires Valid()
      modifies this
      ensures Valid()
      ensures State() == MenuFrame(old(State()), inp).next
      ensures report == MenuFrame(old(State()), inp).report
    {
      if inp.startClicked {
        StartFromMenu();
      }
      if inp.exitClicked {
        run := false;
      }
      report := FrameReport(MainMenu, None, None, false, false, false);
    }

    /** The start button: start the game and the intro, and clear both overlays. */
    method StartFromMenu()
      requires Valid()
      modifies this
      ensures Valid()
      ensures State() == Resume(old(State()).(startGame := true, startIntro := true))
    {
      startGame := true;
      startIntro := true;
      inventoryScreen, pauseGame := false, false;
    }

    method PauseScreen(inp: FrameInput) returns (report: FrameReport)
      requires Valid()
      modifies this
      ensures Valid()
      ensures State() == PauseFrame(old(State()), inp).next
      ensures report == PauseFrame(old(State()), inp).report
    {
      if inp.resumeClicked {
        inventoryScreen, pauseGame := false, false;
      }
      if inp.exitClicked {
        run := false;
      }
      report := FrameReport(PauseMenu, None, None, false, false, false);
    }

    method InventoryScreen(inp: FrameInput) returns (report: FrameReport)
      requires Valid()
      modifies this
      ensures Valid()
      ensures State() == InventoryFrame(old(State()), inp).next
      ensures report == InventoryFrame(old(State()), inp).report
    {
      if inp.inventoryResumeClicked {
        inventoryScreen, pauseGame := false, false;
      }
      report := FrameReport(InventoryMenu, None, None, false, false, false);
    }

    /** Bind main()'s player variable to a new player object. */
    method RebindPlayer(p: Player)
      modifies this
      ensures player == p && playerRebound
      ensures modulePlayer == (if old(playerRebound) then old(modulePlayer) else old(player))
      ensures level == old(level) && startGame == old(startGame) && pauseGame == old(pauseGame)
      ensures inventoryScreen == old(inventoryScreen) && startIntro == old(startIntro)
      ensures pD == old(pD) && run == old(run) && levelComplete == old(levelComplete)
      ensures movingLeft == old(movingLeft) && movingRight == old(movingRight)
      ensures movingUp == old(movingUp) && movingDown == old(movingDown)
    {
      if !playerRebound {
        modulePlayer := player;
      }
      player := p;
      playerRebound := true;
    }

    method PlayScreen(inp: FrameInput) returns (report: FrameReport)
      requires Valid()
      modifies this, introFade, deathFade
      ensures Valid()
      ensures State() == PlayFrame(cfg, old(State()), inp).next
      ensures report == PlayFrame(cfg, old(State()), inp).report
    {
      var intent: Option<Intent> := None;
      if player.alive {
        intent := Some(MoveIntent(Held(movingLeft, movingRight, movingUp, movingDown), cfg.speed));
        SimulationStep(inp);
      }
      // draw_info
      var hearts := DrawHearts(player.health);
      var hud := HudView(hearts, level, player.score);
      var levelUp := levelComplete;
      if levelComplete {
        CompleteLevel(inp.nextLevelPlayer);
      }
      if startIntro {
        ShowIntro();
      }
      var cue, restarted := false, false;
      if !player.alive {
        cue, restarted := ShowDeathScreen(inp);
      }
      report := FrameReport(Playing, intent, Some(hud), cue, levelUp, restarted);
    }

    /** The player as the subsystems left it, and the move's level_complete. */
    method SimulationStep(inp: FrameInput)
      requires Valid()
      modifies this
      ensures Valid()
      ensures State() == Simulate(old(State()), inp)
    {
      player := inp.stepped;
      levelComplete := inp.reachedExit;
      if !playerRebound {
        modulePlayer := inp.stepped;
      }
    }

    /** Level complete: next level, and the new player gets the old health and score. */
    method CompleteLevel(newPlayer: Player)
      requires Valid()
      modifies this
      ensures Valid()
      ensures State() == LevelUp(old(State()), newPlayer)
    {
      startIntro := true;
      level := level + 1;
      var tempHp := player.health;
      var tempScore := player.score;
      RebindPlayer(newPlayer);
      player := player.(health := tempHp, score := tempScore);
    }

    /** The intro fade of a frame in which start_intro is set. */
    method ShowIntro()
      requires Valid() && startIntro
      modifies this, introFade
      ensures Valid()
      ensures State() == IntroFade(cfg, old(State()))
    {
      var done := introFade.Fade(cfg.screenWidth);
      if done {
        startIntro := false;
        introFade.fadeCounter := 0;
      }
    }

    /** The death screen of a frame in which the player is dead. */
    method ShowDeathScreen(inp: FrameInput) returns (cue: bool, restarted: bool)
      requires Valid() && !player.alive
      modifies this, deathFade
      ensures Valid()
      ensures State() == DeathScreen(cfg, old(State()), inp).next
      ensures cue == DeathScreen(cfg, old(State()), inp).cue
      ensures restarted == DeathScreen(cfg, old(State()), inp).restarted
    {
      cue := DeathCue();
      var faded := AdvanceDeathFade();
      restarted := false;
      if faded && inp.restartClicked {
        RestartLevel(inp.restartPlayer);
        restarted := true;
      }
    }

    /** One frame of the death fade. */
    method AdvanceDeathFade() returns (faded: bool)
      requires Valid()
      modifies deathFade
      ensures Valid()
      ensures State() == old(State()).(deathCounter := old(State()).deathCounter + DeathFadeSpeed)
      ensures faded == FadeComplete(old(State()).deathCounter + DeathFadeSpeed, cfg.screenWidth)
    {
      faded := deathFade.Fade(cfg.screenWidth);
    }

    /** The one-shot death cue: the latch loop body runs at most once. */
    method DeathCue() returns (cue: bool)
      requires Valid()
      modifies this
      ensures Valid()
      ensures cue == old(pD)
      ensures State() == old(State()).(pD := false)
    {
      cue := false;
      while pD
        invariant cue == (old(pD) && !pD)
        invariant State() == old(State()).(pD := pD)
        decreases pD
      {
        cue := true;
        pD := false;
      }
    }

    /** Restart: reset the death fade, rebuild the same level, keep the score, re-arm the latch. */
    method RestartLevel(newPlayer: Player)
      requires Valid()
      modifies this, deathFade
      ensures Valid()
      ensures State() == Restart(old(State()), newPlayer)
    {
      deathFade.fadeCounter := 0;
      startIntro := true;
      var tempScore := player.score;
      RebindPlayer(newPlayer);
      pD := true;
      player := player.(score := tempScore);
    }

    /** The event handler: each event of the frame in order. */
    method HandleEvents(events: seq<Event>)
      requires Valid()
      modifies this
      ensures Valid()
      ensures State() == ApplyEvents(old(State()), events)
    {
      for i := 0 to |events|
        invariant State() == ApplyEvents(old(State()), events[..i])
      {
        assert events[..i + 1][..i] == events[..i];
        HandleEvent(events[i]);
      }
      assert events[..|events|] == events;
    }

    /** One event: a key press or release; every other event changes nothing here. */
    method HandleEvent(e: Event)
      requires Valid()
      modifies this
      ensures Valid()
      ensures State() == OnEvent(old(State()), e)
    {
      match e {
        case KeyDown(k) => PressKey(k);
        case KeyUp(k) => ReleaseKey(k);
        case Quit =>
        case OtherEvent =>
      }
    }

    /** Key-down: a, d, w, s set their movement flag, Escape the pause flag,
        and c, b, i, p the inventory flag. */
    method PressKey(k: Key)
      requires Valid()
      modifies this
      ensures Valid()
      ensures State() == OnEvent(old(State()), KeyDown(k))
    {
      KeyDownInTwoSteps(State(), k);
      SetHeld(Press(Held(movingLeft, movingRight, movingUp, movingDown), k));
      SetOverlays(pauseGame || k == KeyEscape, inventoryScreen || InventoryKey(k));
    }

    /** Key-up: a, d, w, s clear their movement flag. */
    method ReleaseKey(k: Key)
      requires Valid()
      modifies this
      ensures Valid()
      ensures State() == OnEvent(old(State()), KeyUp(k))
    {
      SetHeld(Release(Held(movingLeft, movingRight, movingUp, movingDown), k));
    }

    /** Store the four movement flags. */
    method SetHeld(h: Held)
      requires Valid()
      modifies this
      ensures Valid()
      ensures State() == old(State()).(held := h)
    {
      movingLeft, movingRight, movingUp, movingDown := h.left, h.right, h.up, h.down;
    }

    /** Store the two overlay flags. */
    method SetOverlays(pause: bool, inventory: bool)
      requires Valid()
      modifies this
      ensures Valid()
      ensures State() == old(State()).(pauseGame := pause, inventoryScreen := inventory)
    {
      pauseGame, inventoryScreen := pause, inventory;
    }
  }
}
