/**
 Desktop-shell focus and stacking of desktop-shell/shell.c, as functions on values:
 the per-seat focus with its per-surface counts, the forest of parents that
 redirects an activation, and the workspace layer.
 */
module Stacking {
  import opened Wrappers

  type Surface = nat
  type Seat = nat

  /** The children lists, oldest child first, and heights that witness that there is no cycle. */
  datatype Tree = Tree(children: map<Surface, seq<Surface>>, height: map<Surface, nat>)

  /** focus_count of each shell surface, focused_surface of each shell seat, and the seats that died focused. */
  datatype Focus = Focus(count: map<Surface, int>, focused: map<Seat, Option<Surface>>, abandoned: map<Surface, nat>)

  /** The workspace layer, top-most first, and when each surface was last raised. */
  datatype Stack = Stack(layer: seq<Surface>, raisedAt: map<Surface, nat>, clock: nat)

  datatype State = State(
    mapped: set<Surface>,
    tree: Tree,
    focus: Focus,
    stack: Stack,
    seats: seq<Seat>,
    keyboard: map<Seat, Option<Surface>>)     // keyboard_focus of each focus_state

  const EMPTY := State({}, Tree(map[], map[]), Focus(map[], map[], map[]), Stack([], map[], 0), [], map[])

  function Without(s: seq<Surface>, x: Surface): (r: seq<Surface>)
    ensures x !in r
    ensures forall y :: y in r <==> y in s && y != x
  {
    if s == [] then []
    else if s[0] == x then Without(s[1..], x)
    else [s[0]] + Without(s[1..], x)
  }

  // ---- the forest ---------------------------------------------------------------

  ghost predicate Forest(tree: Tree) {
    && tree.height.Keys == tree.children.Keys
    && forall p, c :: p in tree.children && c in tree.children[p] ==>
         c in tree.children && tree.height[c] < tree.height[p]
  }

  /** The last child in a list that is mapped. */
  function LastMapped(kids: seq<Surface>, mapped: set<Surface>): (r: Option<Surface>)
    ensures r.Some? ==> r.value in kids && r.value in mapped
    ensures r.None? ==> forall c :: c in kids ==> c !in mapped
  {
    if kids == [] then None
    else if kids[|kids| - 1] in mapped then Some(kids[|kids| - 1])
    else LastMapped(kids[..|kids| - 1], mapped)
  }

  /** Where an activation of s ends up: down the chain of last mapped children. */
  ghost function Target(tree: Tree, mapped: set<Surface>, s: Surface): (t: Surface)
    requires Forest(tree) && s in tree.children
    ensures t in tree.children
    decreases tree.height[s]
  {
    match LastMapped(tree.children[s], mapped)
    case None => s
    case Some(c) => Target(tree, mapped, c)
  }

  /** p is s or below s in the forest. */
  ghost predicate Below(tree: Tree, s: Surface, p: Surface)
    requires Forest(tree) && s in tree.children
    decreases tree.height[s]
  {
    s == p || exists c :: c in tree.children[s] && Below(tree, c, p)
  }

  function Unlink(children: map<Surface, seq<Surface>>, s: Surface): (r: map<Surface, seq<Surface>>)
    ensures r.Keys == children.Keys
    ensures forall p, k :: p in children ==> (k in r[p] <==> k in children[p] && k != s)
  {
    map p | p in children :: Without(children[p], s)
  }

  /** Make room above a new child: the parent and all above it go up by more than the child's height. */
  ghost function Lift(tree: Tree, c: Surface, q: Surface): map<Surface, nat>
    requires Forest(tree) && c in tree.children
  {
    map x | x in tree.children :: tree.height[x] + if Below(tree, x, q) then tree.height[c] + 1 else 0
  }

  ghost function Reparent(tree: Tree, c: Surface, p: Option<Surface>): Tree
    requires Forest(tree) && c in tree.children && (p.Some? ==> p.value in tree.children)
  {
    var unlinked := Unlink(tree.children, c);
    match p
    case None => tree.(children := unlinked)
    case Some(q) => Tree(unlinked[q := unlinked[q] + [c]], Lift(tree, c, q))
  }

  // ---- focus and layer -------------------------------------------------------------

  /** Bring a surface to the top of the workspace layer. */
  function Raise(k: Stack, s: Surface): Stack {
    Stack([s] + Without(k.layer, s), k.raisedAt[s := k.clock], k.clock + 1)
  }

  /** Every non-null focused_surface still has a shell surface, hence a count. */
  ghost predicate FocusValid(f: Focus) {
    forall seat :: seat in f.focused && f.focused[seat].Some? ==> f.focused[seat].value in f.count
  }

  /** The counting half of activate(): the old focus loses one, the new one gains one, unless they are the same. */
  function Refocus(f: Focus, t: Surface, seat: Seat): Focus
    requires t in f.count
    requires seat in f.focused && f.focused[seat].Some? ==> f.focused[seat].value in f.count
  {
    if seat !in f.focused || f.focused[seat] == Some(t) then f
    else
      var counts := if f.focused[seat].Some?
                    then f.count[f.focused[seat].value := f.count[f.focused[seat].value] - 1]
                    else f.count;
      f.(count := counts[t := counts[t] + 1], focused := f.focused[seat := Some(t)])
  }

  function Unfocus(focused: map<Seat, Option<Surface>>, s: Surface): map<Seat, Option<Surface>> {
    map seat | seat in focused :: if focused[seat] == Some(s) then None else focused[seat]
  }

  // ---- the operations ---------------------------------------------------------------

  ghost predicate Valid(st: State) {
    Forest(st.tree) && FocusValid(st.focus) && st.focus.count.Keys == st.tree.children.Keys
  }

  ghost function Activate(st: State, s: Surface, seat: Seat): (r: State)
    requires Valid(st) && s in st.tree.children
    ensures Valid(r) && r.tree == st.tree && r.seats == st.seats && r.mapped == st.mapped
    ensures r.focus.focused.Keys == st.focus.focused.Keys
  {
    var t := Target(st.tree, st.mapped, s);
    st.(focus := Refocus(st.focus, t, seat), keyboard := st.keyboard[seat := Some(t)], stack := Raise(st.stack, t))
  }

  /** map(): every seat of the compositor, in list order, activates the new surface. */
  ghost function ActivateAll(st: State, s: Surface, i: nat): State
    requires Valid(st) && s in st.tree.children && i <= |st.seats|
    decreases |st.seats| - i
  {
    if i == |st.seats| then st else ActivateAll(Activate(st, s, st.seats[i]), s, i + 1)
  }

  ghost function MapSurface(st: State, s: Surface): State
    requires Valid(st) && s in st.tree.children
  {
    ActivateAll(st.(mapped := st.mapped + {s}, stack := Raise(st.stack, s)), s, 0)
  }

  function Add(st: State, s: Surface): State {
    st.(tree := Tree(st.tree.children[s := []], st.tree.height[s := 0]),
        focus := st.focus.(count := st.focus.count[s := 0], abandoned := st.focus.abandoned[s := 0]))
  }

  /** desktop_surface_removed and desktop_shell_destroy_surface. */
  function RemoveSurface(st: State, s: Surface): State {
    st.(mapped := st.mapped - {s},
        tree := Tree(Unlink(st.tree.children, s) - {s}, st.tree.height - {s}),
        focus := st.focus.(count := st.focus.count - {s}, focused := Unfocus(st.focus.focused, s)),
        stack := st.stack.(layer := Without(st.stack.layer, s)))
  }

  /** The first view of the layer that shows another surface which has a shell surface. */
  function FirstOther(layer: seq<Surface>, s: Surface, surfaces: set<Surface>): (r: Option<Surface>)
    ensures r.Some? ==> r.value in layer && r.value != s && r.value in surfaces
  {
    if layer == [] then None
    else if layer[0] != s && layer[0] in surfaces then Some(layer[0])
    else FirstOther(layer[1..], s, surfaces)
  }

  /** focus_state_surface_destroy for the focus state of one seat. */
  ghost function HandOver(st: State, s: Surface, seat: Seat): (r: State)
    requires Valid(st)
    ensures Valid(r)
  {
    match FirstOther(st.stack.layer, s, st.tree.children.Keys)
    case None => st.(keyboard := st.keyboard - {seat})
    case Some(n) => Activate(st.(keyboard := st.keyboard[seat := None]), n, seat)
  }

  /** The destroy signal of the weston_surface reaches the focus states in the given order. */
  ghost function SurfaceGone(st: State, s: Surface, order: seq<Seat>): State
    requires Valid(st)
    decreases |order|
  {
    if order == [] then st
    else if order[0] in st.keyboard && st.keyboard[order[0]] == Some(s) then
      SurfaceGone(HandOver(st, s, order[0]), s, order[1..])
    else SurfaceGone(st, s, order[1..])
  }

  function SeatCreated(st: State, seat: Seat): State {
    st.(seats := st.seats + [seat], focus := st.focus.(focused := st.focus.focused[seat := None]))
  }

  /** The shell seat goes; the count of the surface it was focused on stays. */
  function Abandon(f: Focus, seat: Seat): Focus {
    var left := if seat in f.focused && f.focused[seat].Some? && f.focused[seat].value in f.abandoned
                then f.abandoned[f.focused[seat].value := f.abandoned[f.focused[seat].value] + 1]
                else f.abandoned;
    f.(focused := f.focused - {seat}, abandoned := left)
  }

  function SeatDestroyed(st: State, seat: Seat): State {
    st.(seats := Without(st.seats, seat), focus := Abandon(st.focus, seat), keyboard := st.keyboard - {seat})
  }

  // ---- runs -------------------------------------------------------------------------------

  datatype Event =
    | Added(s: Surface)
    | Committed(s: Surface)                       // the first commit with content: map()
    | Activated(s: Surface, seat: Seat)
    | Reparented(s: Surface, parent: Option<Surface>)
    | Removed(s: Surface)
    | Gone(s: Surface, order: seq<Seat>)
    | NewSeat(seat: Seat)
    | LostSeat(seat: Seat)

  /** What libweston guarantees of an event: it names live objects and parents are acyclic. */
  ghost predicate Allowed(st: State, e: Event)
    requires Valid(st)
  {
    match e
    case Added(s) => s !in st.tree.children
    case Committed(s) => s in st.tree.children
    case Activated(s, _) => s in st.tree.children
    case Reparented(s, p) =>
      s in st.tree.children && (p.Some? ==> p.value in st.tree.children && !Below(st.tree, s, p.value))
    case Removed(s) => s in st.tree.children
    case Gone(s, _) => s !in st.tree.children
    case NewSeat(seat) => seat !in st.focus.focused && seat !in st.seats
    case LostSeat(_) => true
  }

  ghost function React(st: State, e: Event): State
    requires Valid(st) && Allowed(st, e)
  {
    match e
    case Added(s) => Add(st, s)
    case Committed(s) => if s in st.mapped then st else MapSurface(st, s)
    case Activated(s, seat) => Activate(st, s, seat)
    case Reparented(s, p) => st.(tree := Reparent(st.tree, s, p))
    case Removed(s) => RemoveSurface(st, s)
    case Gone(s, order) => SurfaceGone(st, s, order)
    case NewSeat(seat) => SeatCreated(st, seat)
    case LostSeat(seat) => SeatDestroyed(st, seat)
  }
}
