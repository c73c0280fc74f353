/**
 * The page's state: the single cached "latest result" (window.latestResult)
 * and the disabled flag of the simulate button, with the handlers that read and
 * write them: resizeCanvas and the three stages of the form's submit handler.
 * The request itself is asynchronous I/O; its outcome is passed in as a Response.
 */
module Viewer {
  import opened Model
  import opened Scenes

  /** { data, payload }: the last successful response with the beam that was submitted. */
  datatype RenderState = RenderState(data: SimulationResult, payload: Payload)

  /**
   * How the request ended: a parsed body after an ok status, or a failure
   * (non-ok status, a network error or an unparsable body), all of which
   * reach the catch branch.
   */
  datatype Response = Received(data: SimulationResult) | Failed

  class Page {
    var latestResult: Option<RenderState>
    var simulateDisabled: bool

    /** A cached result can always be redrawn. */
    ghost predicate Valid()
      reads this
    {
      latestResult.Some? ==> Renderable(latestResult.value.payload)
    }

    /** Page load: nothing cached, the button enabled. */
    constructor ()
      ensures Valid()
      ensures latestResult == None && !simulateDisabled
    {
      latestResult := None;
      simulateDisabled := false;
    }

    /** The scene any redraw shows for the current state. */
    ghost function CurrentScene(cw: real, ch: real): Scene
      reads this
      requires Valid()
    {
      match latestResult
      case None => IdleSceneOf(cw, ch)
      case Some(rs) => SimulationSceneOf(rs.data, rs.payload, cw, ch)
    }

    /** resizeCanvas: redraws the idle scene exactly when no result is cached. */
    method ResizeCanvas(cw: real, ch: real) returns (scene: Scene)
      requires Valid()
      ensures scene.IdleScene? <==> latestResult.None?
      ensures scene == CurrentScene(cw, ch)
    {
      if latestResult.None? {
        scene := DrawInitialSetup(cw, ch);
      } else {
        scene := DrawSimulation(latestResult.value.data, latestResult.value.payload, cw, ch);
      }
    }

    /** The submit handler before the request is sent: the button is disabled. */
    method BeginSubmit()
      requires Valid()
      modifies this
      ensures Valid()
      ensures simulateDisabled
      ensures latestResult == old(latestResult)
    {
      simulateDisabled := true;
    }

    /**
     * The submit handler once the request has ended. On success the cache is
     * replaced by exactly { data, payload } and the simulation is drawn; on
     * failure the cache is untouched and nothing is drawn. Either way the button
     * is enabled again.
     */
    method CompleteSubmit(payload: Payload, response: Response, cw: real, ch: real) returns (drawn: Option<Scene>)
      requires Valid()
      requires response.Received? ==> Renderable(payload)
      modifies this
      ensures Valid()
      ensures !simulateDisabled
      ensures response.Received? ==> latestResult == Some(RenderState(response.data, payload))
      ensures response.Received? ==> drawn == Some(CurrentScene(cw, ch))
      ensures response.Failed? ==> latestResult == old(latestResult) && drawn == None
      ensures old(latestResult).Some? ==> latestResult.Some?
    {
      match response
      case Received(data) =>
        latestResult := Some(RenderState(data, payload));
        var scene := DrawSimulation(data, payload, cw, ch);
        drawn := Some(scene);
        simulateDisabled := false;
      case Failed =>
        drawn := None;
        simulateDisabled := false;
    }
  }

  /**
   * A session: the idle scene before any result; after a success every resize
   * shows that result; a later failure keeps showing it and re-enables the button.
   */
  method Session(first: Payload, data: SimulationResult, second: Payload, cw: real, ch: real)
    requires Renderable(first)
  {
    var page := new Page();
    var s := page.ResizeCanvas(cw, ch);
    assert s == IdleSceneOf(cw, ch);

    page.BeginSubmit();
    assert page.simulateDisabled;
    var drawn := page.CompleteSubmit(first, Received(data), cw, ch);
    s := page.ResizeCanvas(cw, ch);
    assert s == SimulationSceneOf(data, first, cw, ch);

    page.BeginSubmit();
    drawn := page.CompleteSubmit(second, Failed, cw, ch);
    assert drawn == None && !page.simulateDisabled;
    s := page.ResizeCanvas(cw, ch);
    assert s == SimulationSceneOf(data, first, cw, ch);
  }
}
