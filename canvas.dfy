/** The React canvas host: the canvas-size rule, the slug-to-game dispatch,
    the choice of mobile controls and the mapping of the page's game state
    onto the engine lifecycle. */
module GameCanvas {
  import opened Common
  import opened GameEngine

  /** A canvas size in whole pixels. */
  datatype Size = Size(width: int, height: int)

  /** The canvas size the effect settles on: 800x600 on desktop; on mobile the
      width is capped at 380 and raised to 320 (with height 240) when
      smaller, and the height is capped by half the screen, by 285 and by a
      4:3 aspect, then cut down to a whole pixel. The window's inner width
      and height are whole numbers of CSS pixels. */
  function CanvasSize(isMobile: bool, innerWidth: nat, innerHeight: nat): (r: Size)
    ensures !isMobile ==> r == Size(800, 600)
    ensures isMobile ==> 320 <= r.width <= 380
    ensures isMobile && innerWidth - 20 < 320 ==> r == Size(320, 240)
    ensures isMobile && innerWidth - 20 >= 320 ==>
      && (r.width == innerWidth - 20 || r.width == 380)
      && r.width <= innerWidth - 20
      && 0 <= r.height <= 285
      && r.height as real <= innerHeight as real * 0.5
      && r.height as real <= (r.width * 3) as real / 4.0
      && ((r.height + 1) as real > innerHeight as real * 0.5 || r.height == 285
          || (r.height + 1) as real > (r.width * 3) as real / 4.0)
  {
    if isMobile then
      var w := MinInt(innerWidth - 20, 380);
      var avail := Min(innerHeight as real * 0.5, 285.0);
      if w < 320 then Size(320, 240) else Size(w, Floor(Min(avail, (w * 3) as real / 4.0)))
    else Size(800, 600)
  }

  /** Assigning a number to one of the canvas's `unsigned long` size
      attributes: Web IDL truncates toward zero and wraps modulo 2^32, and
      HTML's reflection rule keeps a value up to 2^31 - 1 and puts the
      attribute's default back otherwise. */
  function AttributeValue(v: real, default: nat): (n: nat)
    requires default <= 2147483647
    ensures n <= 2147483647
    ensures 0.0 <= v < 2147483648.0 ==> n == Floor(v)
    ensures -2147483649.0 < v <= -1.0 ==> n == default
  {
    var t := if v >= 0.0 then v.Floor else -((-v).Floor);
    var u := t % 4294967296;
    if u <= 2147483647 then u else default
  }

  /** The canvas element's two size attributes (defaults 300 by 150). */
  class Canvas {
    var width: nat
    var height: nat

    constructor ()
      ensures width == 300 && height == 150
    {
      width, height := 300, 150;
    }
  }

  /** The sizing statements of the game-construction effect, in order; each
      assignment to an attribute goes through its integer conversion. */
  method SizeCanvas(canvas: Canvas, isMobile: bool, innerWidth: nat, innerHeight: nat)
    modifies canvas
    ensures Size(canvas.width, canvas.height) == CanvasSize(isMobile, innerWidth, innerHeight)
  {
    if isMobile {
      var availableWidth := MinInt(innerWidth - 20, 380);
      var availableHeight := Min(innerHeight as real * 0.5, 285.0);
      canvas.width := AttributeValue(availableWidth as real, 300);
      canvas.height := AttributeValue(Min(availableHeight, (canvas.width * 3) as real / 4.0), 150);
      if canvas.width < 320 {
        canvas.width := 320;
        canvas.height := 240;
      }
    } else {
      canvas.width := 800;
      canvas.height := 600;
    }
  }

  /** The game class the host constructs for a slug. */
  datatype GameKind = SimplePacManGame | GalagaGame | FroggerGame

  function GameFor(slug: string): (r: GameKind)
    ensures r == GalagaGame <==> slug == "bitcoin-defender"
    ensures r == FroggerGame <==> slug == "defi-runner"
    ensures r == SimplePacManGame <==> slug != "bitcoin-defender" && slug != "defi-runner"
  {
    match slug
    case "crypto-collector" => SimplePacManGame
    case "bitcoin-defender" => GalagaGame
    case "defi-runner" => FroggerGame
    case _ => SimplePacManGame
  }

  /** getControlType: the button layout of the mobile controls. */
  datatype ControlType = GalagaControls | PacmanControls | FroggerControls

  function GetControlType(slug: string): (r: ControlType)
    ensures r == GalagaControls <==> slug == "bitcoin-defender"
    ensures r == FroggerControls <==> slug == "defi-runner"
    ensures r == PacmanControls <==> slug != "bitcoin-defender" && slug != "defi-runner"
  {
    if slug == "bitcoin-defender" then GalagaControls
    else if slug == "defi-runner" then FroggerControls
    else if slug == "crypto-collector" then PacmanControls
    else PacmanControls
  }

  /** The control layout always matches the game that was built. */
  lemma ControlsMatchGame(slug: string)
    ensures GameFor(slug) == SimplePacManGame <==> GetControlType(slug) == PacmanControls
    ensures GameFor(slug) == GalagaGame <==> GetControlType(slug) == GalagaControls
    ensures GameFor(slug) == FroggerGame <==> GetControlType(slug) == FroggerControls
  {
  }

  /** The page's game state. */
  datatype GameState = Menu | Playing | Paused | GameOver

  /** The touch widget rendered under the canvas. */
  datatype Widget = NoWidget | JoystickWidget | ButtonsWidget(layout: ControlType)

  function MobileWidget(isMobile: bool, hasGame: bool, state: GameState, slug: string): (r: Widget)
    ensures r == JoystickWidget <==> isMobile && hasGame && state == Playing && slug == "crypto-collector"
    ensures r.ButtonsWidget? <==> isMobile && hasGame && state == Playing && slug != "crypto-collector"
    ensures r.ButtonsWidget? ==> r.layout == GetControlType(slug)
  {
    if isMobile && hasGame && state == Playing then
      if slug == "crypto-collector" then JoystickWidget else ButtonsWidget(GetControlType(slug))
    else NoWidget
  }

  /** The game-state effect: playing starts, paused pauses, game over stops,
      the menu does nothing. */
  method ApplyGameState(engine: Engine, state: GameState)
    modifies engine`running, engine`paused, engine`frameRequested
    ensures state == Playing ==> engine.running && !engine.paused
    ensures state == Paused ==> engine.paused && engine.running == old(engine.running)
    ensures state == GameOver ==> !engine.running && !engine.frameRequested && engine.paused == old(engine.paused)
    ensures state == Menu ==> engine.running == old(engine.running) && engine.paused == old(engine.paused)
                              && engine.frameRequested == old(engine.frameRequested)
  {
    match state
    case Playing => engine.Start();
    case Paused => engine.Pause();
    case GameOver => engine.Stop();
    case Menu =>
  }
}
