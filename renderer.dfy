/** The renderer: an ordered scene list of entities plus an optional
    background, painted every frame onto a canvas's graphics context.  The
    context is modelled by the commands issued to it and the drawing state
    that `save` and `restore` push and pop. */
module Rendering {
  import opened Wrappers
  import opened Collections
  import opened Motion
  import opened Models

  datatype Color = Color(red: real, green: real, blue: real, opacity: real)

  /** The context's default fill. */
  const Black: Color := Color(0.0, 0.0, 0.0, 1.0)

  /** The fill `prepare` clears the canvas with. */
  const Gray: Color := Color(0.68, 0.68, 0.68, 1.0)

  /** An affine transform: the identity, or `new Rotate(angle, px, py)`,
      whose matrix entries are trigonometric and kept abstract. */
  datatype Transform = Identity | Rotation(angle: real, pivot: Vec)

  /** The part of the drawing state that `save` and `restore` carry. */
  datatype DrawState = DrawState(transform: Transform, fill: Color)

  /** The calls made on a `GraphicsContext`. */
  datatype Command =
    | Save
    | Restore
    | SetFill(color: Color)
    | FillRect(x: real, y: real, w: real, h: real)
    | DrawImageAt(image: Image, x: real, y: real)
    | DrawImage(image: Image, x: real, y: real, w: real, h: real)
    | SetTransform(transform: Transform)

  /** The context's state: current attributes and the stack `save` pushes. */
  datatype Context = Context(current: DrawState, saved: seq<DrawState>)

  /** A fresh context. */
  const Pristine: Context := Context(DrawState(Identity, Black), [])

  /** What one call does to the state; `restore` on an empty stack is ignored. */
  function Exec(c: Context, cmd: Command): Context
  {
    match cmd
    case Save => c.(saved := c.saved + [c.current])
    case Restore =>
      if c.saved == [] then c else Context(c.saved[|c.saved| - 1], c.saved[..|c.saved| - 1])
    case SetFill(color) => c.(current := c.current.(fill := color))
    case SetTransform(t) => c.(current := c.current.(transform := t))
    case _ => c
  }

  function Replay(c: Context, cmds: seq<Command>): Context
    decreases cmds
  {
    if cmds == [] then c else Replay(Exec(c, cmds[0]), cmds[1..])
  }

  lemma {:induction false} ReplayAppend(c: Context, a: seq<Command>, b: seq<Command>)
    ensures Replay(c, a + b) == Replay(Replay(c, a), b)
    decreases a
  {
    if a == [] {
      assert a + b == b;
    } else {
      assert (a + b)[0] == a[0];
      assert (a + b)[1..] == a[1..] + b;
      ReplayAppend(Exec(c, a[0]), a[1..], b);
    }
  }

  /** The two calls `prepare` makes: a gray fill over the whole canvas. */
  function PrepareTrace(width: real, height: real): seq<Command>
  {
    [SetFill(Gray), FillRect(0.0, 0.0, width, height)]
  }

  /** The calls `render` makes for one entity: rotate about its centre, then
      draw its image at its position with its scaled size. */
  function EntityCommands(b: Body): seq<Command>
  {
    [SetTransform(Rotation(b.rotation, Center(b))),
     DrawImage(b.image, b.position.x, b.position.y, ScaledWidth(b), ScaledHeight(b))]
  }

  function EntityTrace(bs: seq<Body>): seq<Command>
  {
    if bs == [] then [] else EntityTrace(bs[..|bs| - 1]) + EntityCommands(bs[|bs| - 1])
  }

  function BackgroundTrace(background: Option<Image>): seq<Command>
  {
    if background.Some? then [DrawImageAt(background.value, 0.0, 0.0)] else []
  }

  /** Everything `render` issues for a background and a scene list. */
  function RenderTrace(background: Option<Image>, bs: seq<Body>): seq<Command>
  {
    [Save] + BackgroundTrace(background) + EntityTrace(bs) + [Restore]
  }

  /** Appending the bracketed frame piece by piece or as one trace agrees. */
  lemma BracketedAfter(prefix: seq<Command>, bg: seq<Command>, body: seq<Command>)
    ensures prefix + [Save] + bg + body + [Restore] == prefix + ([Save] + bg + body + [Restore])
  {
  }

  /** The snapshot of each listed entity's fields, in list order. */
  function Bodies(es: seq<Entity>): (bs: seq<Body>)
    reads es
    ensures |bs| == |es|
    ensures forall i :: 0 <= i < |es| ==> bs[i] == es[i].State()
  {
    if es == [] then [] else Bodies(es[..|es| - 1]) + [es[|es| - 1].State()]
  }

  /** For each entity in order, exactly one transform and then one draw. */
  lemma {:induction false} EntityTraceAt(bs: seq<Body>)
    ensures |EntityTrace(bs)| == 2 * |bs|
    ensures forall i :: 0 <= i < |bs| ==>
      EntityTrace(bs)[2 * i] == SetTransform(Rotation(bs[i].rotation, Center(bs[i]))) &&
      EntityTrace(bs)[2 * i + 1] == DrawImage(bs[i].image, bs[i].position.x, bs[i].position.y, ScaledWidth(bs[i]), ScaledHeight(bs[i]))
  {
    if bs != [] {
      EntityTraceAt(bs[..|bs| - 1]);
    }
  }

  /** The entity calls change only the current transform. */
  lemma {:induction false} EntityTraceKeepsStack(c: Context, bs: seq<Body>)
    ensures Replay(c, EntityTrace(bs)).saved == c.saved
    ensures Replay(c, EntityTrace(bs)).current.fill == c.current.fill
  {
    if bs != [] {
      var init := EntityTrace(bs[..|bs| - 1]);
      var b := bs[|bs| - 1];
      EntityTraceKeepsStack(c, bs[..|bs| - 1]);
      ReplayAppend(c, init, EntityCommands(b));
      var x := Replay(c, init);
      var cmds := EntityCommands(b);
      assert cmds[1..][0] == cmds[1] && cmds[1..][1..] == [];
      calc {
        Replay(x, cmds);
        Replay(Exec(x, cmds[0]), cmds[1..]);
        Replay(Exec(Exec(x, cmds[0]), cmds[1]), []);
      }
    }
  }

  /** The shape of a frame: `save` first, `restore` last, the background
      right after `save` exactly when there is one (and no other image drawn
      at a bare position), then each entity's transform and draw in order. */
  lemma RenderTraceLayout(background: Option<Image>, bs: seq<Body>)
    ensures var t := RenderTrace(background, bs);
      var offset := if background.Some? then 2 else 1;
      |t| == offset + 2 * |bs| + 1 &&
      t[0] == Save && t[|t| - 1] == Restore &&
      (background.Some? ==> t[1] == DrawImageAt(background.value, 0.0, 0.0)) &&
      ((exists i :: 0 <= i < |t| && t[i].DrawImageAt?) <==> background.Some?) &&
      forall i :: 0 <= i < |bs| ==>
        t[offset + 2 * i] == SetTransform(Rotation(bs[i].rotation, Center(bs[i]))) &&
        t[offset + 2 * i + 1] == DrawImage(bs[i].image, bs[i].position.x, bs[i].position.y, ScaledWidth(bs[i]), ScaledHeight(bs[i]))
  {
    EntityTraceAt(bs);
    var t := RenderTrace(background, bs);
    var offset := if background.Some? then 2 else 1;
    forall i | 0 <= i < |bs|
      ensures t[offset + 2 * i] == EntityTrace(bs)[2 * i]
      ensures t[offset + 2 * i + 1] == EntityTrace(bs)[2 * i + 1]
    {
    }
    if background.Some? {
      assert t[1].DrawImageAt?;
    } else {
      forall i | 0 <= i < |t| ensures !t[i].DrawImageAt? {
        if 0 < i < |t| - 1 {
          var k := (i - offset) / 2;
          assert i == offset + 2 * k || i == offset + 2 * k + 1;
        }
      }
    }
  }

  /** The save/restore bracket: whatever the scene, a rendered frame leaves
      the context's transform, fill and saved stack as it found them, so
      rotations never leak into the next frame. */
  lemma {:induction false} RenderRestoresContext(c: Context, background: Option<Image>, bs: seq<Body>)
    ensures Replay(c, RenderTrace(background, bs)) == c
  {
    var afterSave := Exec(c, Save);
    var mid := Replay(afterSave, BackgroundTrace(background));
    if background.Some? {
      var bg := BackgroundTrace(background);
      assert bg[1..] == [];
      assert Exec(afterSave, bg[0]) == afterSave;
      assert mid == Replay(afterSave, bg[1..]);
    }
    assert mid == afterSave;
    EntityTraceKeepsStack(mid, bs);
    ReplayAppend(c, [Save], BackgroundTrace(background));
    ReplayAppend(c, [Save] + BackgroundTrace(background), EntityTrace(bs));
    ReplayAppend(c, [Save] + BackgroundTrace(background) + EntityTrace(bs), [Restore]);
    assert afterSave.saved[..|afterSave.saved| - 1] == c.saved;
  }

  /** A `GraphicsContext`: the calls it received and its drawing state. */
  class GraphicsContext {
    var commands: seq<Command>
    var current: DrawState
    var saved: seq<DrawState>

    function State(): Context
      reads this
    {
      Context(current, saved)
    }

    constructor ()
      ensures commands == [] && State() == Pristine
    {
      commands := [];
      current := DrawState(Identity, Black);
      saved := [];
    }

    method Save()
      modifies this
      ensures commands == old(commands) + [Command.Save] && State() == Exec(old(State()), Command.Save)
    {
      commands := commands + [Command.Save];
      saved := saved + [current];
    }

    method Restore()
      modifies this
      ensures commands == old(commands) + [Command.Restore] && State() == Exec(old(State()), Command.Restore)
    {
      commands := commands + [Command.Restore];
      if saved != [] {
        current := saved[|saved| - 1];
        saved := saved[..|saved| - 1];
      }
    }

    method SetFill(color: Color)
      modifies this
      ensures commands == old(commands) + [Command.SetFill(color)] && State() == Exec(old(State()), Command.SetFill(color))
    {
      commands := commands + [Command.SetFill(color)];
      current := current.(fill := color);
    }

    method FillRect(x: real, y: real, w: real, h: real)
      modifies this
      ensures commands == old(commands) + [Command.FillRect(x, y, w, h)] && State() == old(State())
    {
      commands := commands + [Command.FillRect(x, y, w, h)];
    }

    method DrawImageAt(image: Image, x: real, y: real)
      modifies this
      ensures commands == old(commands) + [Command.DrawImageAt(image, x, y)] && State() == old(State())
    {
      commands := commands + [Command.DrawImageAt(image, x, y)];
    }

    method DrawImage(image: Image, x: real, y: real, w: real, h: real)
      modifies this
      ensures commands == old(commands) + [Command.DrawImage(image, x, y, w, h)] && State() == old(State())
    {
      commands := commands + [Command.DrawImage(image, x, y, w, h)];
    }

    method SetTransform(t: Transform)
      modifies this
      ensures commands == old(commands) + [Command.SetTransform(t)] && State() == Exec(old(State()), Command.SetTransform(t))
    {
      commands := commands + [Command.SetTransform(t)];
      current := current.(transform := t);
    }
  }

  /** A canvas: its size follows the window; it owns one graphics context. */
  class Canvas {
    var width: real
    var height: real
    const graphics: GraphicsContext

    constructor (width: real, height: real)
      ensures this.width == width && this.height == height
      ensures fresh(graphics) && graphics.commands == [] && graphics.State() == Pristine
    {
      this.width, this.height := width, height;
      graphics := new GraphicsContext();
    }
  }

  class Renderer {
    const canvas: Canvas
    const context: GraphicsContext
    var background: Option<Image>
    var entities: seq<Entity>

    /** `new Renderer(canvas)`: draws through the canvas's context. */
    constructor (canvas: Canvas)
      ensures this.canvas == canvas && context == canvas.graphics
      ensures background == None && entities == []
    {
      this.canvas := canvas;
      context := canvas.graphics;
      background := None;
      entities := [];
    }

    /** `addEntity(e)`: appends, duplicates included. */
    method AddEntity(entity: Entity)
      modifies this
      ensures entities == old(entities) + [entity] && background == old(background)
    {
      entities := entities + [entity];
    }

    /** `removeEntity(e)`: drops the first occurrence, if any. */
    method RemoveEntity(entity: Entity)
      modifies this
      ensures entities == RemoveFirst(old(entities), entity) && background == old(background)
    {
      entities := RemoveFirst(entities, entity);
    }

    method ClearEntities()
      modifies this
      ensures entities == [] && background == old(background)
    {
      entities := [];
    }

    method SetBackground(background: Option<Image>)
      modifies this
      ensures this.background == background && entities == old(entities)
    {
      this.background := background;
    }

    /** `prepare()`: clears the canvas with a gray rectangle of its size. */
    method Prepare()
      modifies context
      ensures context.commands == old(context.commands) + PrepareTrace(canvas.width, canvas.height)
      ensures context.State() == old(context.State()).(current := old(context.current).(fill := Gray))
    {
      context.SetFill(Gray);
      context.FillRect(0.0, 0.0, canvas.width, canvas.height);
    }

    /** `render()`: one bracketed frame of background and entities.  Only the
        context changes; the scene list and the background do not. */
    method Render()
      modifies context
      ensures context.commands == old(context.commands) + RenderTrace(background, old(Bodies(entities)))
      ensures context.State() == old(context.State())
    {
      ghost var bodies := Bodies(entities);
      DrawBackdrop();
      DrawEntities(entities);
      context.Restore();
      BracketedAfter(old(context.commands), BackgroundTrace(background), EntityTrace(bodies));
    }

    /** The start of `render()`: save the context, then draw the background
        at the origin when there is one. */
    method DrawBackdrop()
      modifies context
      ensures context.commands == old(context.commands) + [Save] + BackgroundTrace(background)
      ensures context.State() == Exec(old(context.State()), Save)
    {
      context.Save();
      if background.Some? {
        context.DrawImageAt(background.value, 0.0, 0.0);
      }
    }

    /** The loop in `render()`: every listed entity, in list order. */
    method DrawEntities(es: seq<Entity>)
      modifies context
      ensures context.commands == old(context.commands) + EntityTrace(old(Bodies(es)))
      ensures context.saved == old(context.saved)
    {
      ghost var bodies := Bodies(es);
      for i := 0 to |es|
        invariant context.commands == old(context.commands) + EntityTrace(bodies[..i])
        invariant context.saved == old(context.saved)
        invariant forall j :: 0 <= j < |es| ==> bodies[j] == es[j].State()
      {
        assert bodies[..i + 1][..i] == bodies[..i];
        DrawEntity(es[i]);
      }
      assert bodies[..|es|] == bodies;
    }

    /** One pass of the loop in `render()`: rotate the context about the
        entity's centre, then draw its image at its scaled size. */
    method DrawEntity(entity: Entity)
      modifies context
      ensures context.commands == old(context.commands) + EntityCommands(entity.State())
      ensures context.saved == old(context.saved)
    {
      ghost var b := entity.State();
      TransformContext(entity);
      var pos := entity.position;
      var w := entity.width * entity.scale;
      var h := entity.height * entity.scale;
      context.DrawImage(entity.image, pos.x, pos.y, w, h);
      assert ScaledWidth(b) == w && ScaledHeight(b) == h;
    }

    /** `transformContext(e)`: rotation by the entity's angle about its centre. */
    method TransformContext(entity: Entity)
      modifies context
      ensures context.commands == old(context.commands) + [SetTransform(Rotation(entity.rotation, Center(entity.State())))]
      ensures context.saved == old(context.saved)
    {
      var center := Center(entity.State());
      context.SetTransform(Rotation(entity.rotation, center));
    }
  }
}
