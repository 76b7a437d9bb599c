/** Scroll-triggered reveal: the two animation states ("hidden" and "visible") a revealed
    element moves between, which of them is targeted, and the staggered container that
    wraps each of its children in a fade-up item.

    Screen coordinates grow rightwards in x and downwards in y; offsets are in pixels. */
module ScrollReveal {

  datatype Direction = Up | Down | Left | Right | Scale | Fade

  /** The animated properties of one state. */
  datatype Pose = Pose(opacity: real, x: real, y: real, scale: real)

  /** The named states an element animates between. */
  datatype Variants = Variants(hidden: Pose, visible: Pose)

  datatype Target = Hidden | Visible

  const DefaultDirection: Direction := Up
  const DefaultDistance: real := 50.0

  /** The scale a `Scale` reveal grows from. */
  const ScaledDown: real := 0.8

  /** The `variants` object: the hidden state is transparent and offset by `distance` on the axis of the
      direction (or scaled down), the visible state is opaque, in place and at full size. */
  function RevealVariants(direction: Direction, distance: real): (v: Variants)
    ensures v.visible == Pose(1.0, 0.0, 0.0, 1.0)
    ensures v.hidden.opacity == 0.0
    ensures v.hidden.scale == if direction == Scale then ScaledDown else 1.0
  {
    Variants(
      Pose(0.0,
           if direction == Left then distance else if direction == Right then -distance else 0.0,
           if direction == Up then distance else if direction == Down then -distance else 0.0,
           if direction == Scale then ScaledDown else 1.0),
      Pose(1.0, 0.0, 0.0, 1.0))
  }

  /** `inView ? "visible" : "hidden"`. */
  function Animate(inView: bool): Target {
    if inView then Visible else Hidden
  }

  /** The state a target names. */
  function PoseOf(v: Variants, t: Target): Pose {
    match t
    case Hidden => v.hidden
    case Visible => v.visible
  }

  /** How far an element travels while being revealed: visible minus hidden position. */
  function Travel(v: Variants): (real, real) {
    (v.visible.x - v.hidden.x, v.visible.y - v.hidden.y)
  }

  /** An element revealed in a direction travels `distance` that way (up is towards smaller y, left towards
      smaller x); `Scale` and `Fade` do not move it. */
  lemma RevealTravels(direction: Direction, distance: real)
    ensures var t := Travel(RevealVariants(direction, distance));
      t == match direction
        case Up => (0.0, -distance)
        case Down => (0.0, distance)
        case Left => (-distance, 0.0)
        case Right => (distance, 0.0)
        case Scale => (0.0, 0.0)
        case Fade => (0.0, 0.0)
  {
  }

  /** A reveal with the default direction and distance rises 50 pixels into place, fading in at full size. */
  lemma DefaultRevealRises()
    ensures var v := RevealVariants(DefaultDirection, DefaultDistance);
      v.hidden == Pose(0.0, 0.0, 50.0, 1.0) && Travel(v) == (0.0, -50.0)
  {
  }

  /** The hidden state is offset along one axis at most, and only a `Scale` reveal changes the size. */
  lemma HiddenOffsetsOneAxis(direction: Direction, distance: real)
    ensures var h := RevealVariants(direction, distance).hidden;
      && (h.x == 0.0 || h.y == 0.0)
      && (h.y != 0.0 ==> direction == Up || direction == Down)
      && (h.x != 0.0 ==> direction == Left || direction == Right)
      && (h.scale != 1.0 <==> direction == Scale)
  {
  }

  /** A `Fade` reveal only changes the opacity: hidden and visible agree on every other property. */
  lemma FadeOnlyOpacity(distance: real)
    ensures var v := RevealVariants(Fade, distance);
      v.hidden == v.visible.(opacity := 0.0)
  {
  }

  /** Revealing up by `d` is revealing down by `-d`, and left by `d` is right by `-d`. */
  lemma OppositeDirections(distance: real)
    ensures RevealVariants(Up, distance) == RevealVariants(Down, -distance)
    ensures RevealVariants(Left, distance) == RevealVariants(Right, -distance)
  {
  }

  /** The animated state is the visible one exactly when the element is in view, whatever the direction and
      distance. */
  lemma VisibleIffInView(direction: Direction, distance: real, inView: bool)
    ensures PoseOf(RevealVariants(direction, distance), Animate(inView)) == RevealVariants(direction, distance).visible
      <==> inView
  {
  }

  // ----- StaggerContainer -----

  /** The container fades in and, when it does, starts its children `staggerChildren` seconds apart. */
  datatype ContainerVariants = ContainerVariants(hiddenOpacity: real, visibleOpacity: real, staggerChildren: real)

  /** A stagger item's state: its opacity and vertical offset. */
  datatype ItemPose = ItemPose(opacity: real, y: real)

  datatype ItemVariants = ItemVariants(hidden: ItemPose, visible: ItemPose)

  /** A child wrapped in an item: its key, the child itself, and the item's states. */
  datatype Item<T> = Item(key: nat, child: T, variants: ItemVariants)

  /** The distance a stagger item rises while appearing. */
  const ItemRise: real := 20.0

  function Container(staggerDelay: real): (c: ContainerVariants)
    ensures c.hiddenOpacity == 0.0 && c.visibleOpacity == 1.0 && c.staggerChildren == staggerDelay
  {
    ContainerVariants(0.0, 1.0, staggerDelay)
  }

  /** The container's opacity in the state a target names. */
  function ContainerOpacity(c: ContainerVariants, t: Target): real {
    match t
    case Hidden => c.hiddenOpacity
    case Visible => c.visibleOpacity
  }

  /** The container is opaque exactly when it is in view, and transparent otherwise. */
  lemma ContainerShownIffInView(staggerDelay: real, inView: bool)
    ensures ContainerOpacity(Container(staggerDelay), Animate(inView)) == 1.0 <==> inView
    ensures ContainerOpacity(Container(staggerDelay), Animate(inView)) == 0.0 <==> !inView
  {
  }

  /** Every item starts transparent and 20 pixels low and ends opaque in place. */
  function StaggerItem(): (v: ItemVariants)
    ensures v.hidden.opacity == 0.0 && v.visible.opacity == 1.0
    ensures v.hidden.y == ItemRise && v.visible.y == 0.0
  {
    ItemVariants(ItemPose(0.0, ItemRise), ItemPose(1.0, 0.0))
  }

  /** `React.Children.map`: each child wrapped in its own item, keyed by its index. */
  function WrapChildren<T>(children: seq<T>): (items: seq<Item<T>>)
    ensures |items| == |children|
  {
    seq(|children|, i requires 0 <= i < |children| => Item(i, children[i], StaggerItem()))
  }

  /** The children inside a sequence of items, in order. */
  function Children<T>(items: seq<Item<T>>): (children: seq<T>)
    ensures |children| == |items|
  {
    seq(|items|, i requires 0 <= i < |items| => items[i].child)
  }

  /** Each child is wrapped exactly once and in order: unwrapping gives the children back, the keys are the
      positions, so distinct, and every item animates with the stagger item states. */
  lemma WrapEachChildOnce<T>(children: seq<T>)
    ensures var items := WrapChildren(children);
      && Children(items) == children
      && (forall i :: 0 <= i < |items| ==> items[i].key == i && items[i].variants == StaggerItem())
      && (forall i, j :: 0 <= i < j < |items| ==> items[i].key != items[j].key)
  {
  }
}
