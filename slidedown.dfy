/** The SlideDown component: a container that animates its height when its
    content appears, disappears, or is opened and closed. The component
    (`SlideDownContent`) keeps React state `(children, childrenLeaving)` and
    drives an outer DOM element through its class list, its inline height and
    its `transition-property`.

    Heights are abstract: `Px(n)` is a pixel length of n hundredths of a
    pixel, the precision at which the component compares lengths. Layout
    measurements (the computed height once the element is set to `auto`, the
    bounding-box height before an update) are parameters. Each step has a
    pure specification on values (`...Effect`), stated and proved first; the
    classes at the end are proved against them. */
module SlideDown {
  import opened Text
  import opened Js

  /** What `props.children` / `state.children` hold: falsy content (null,
      undefined, false, "") or some content, identified by an opaque label. */
  datatype Children = Absent | Present(content: string)

  /** An inline `style.height` value: never set, `auto`, or a pixel length. */
  datatype Height = Unset | Auto | Px(centipixels: int)

  const ZeroPx := Px(0)

  /** `parseFloat(h).toFixed(2)`, with None for the text "NaN" (what both
      `auto` and an unset height parse to). */
  function Fixed2(h: Height): Option<int> {
    if h.Px? then Some(h.centipixels) else None
  }

  /** The resolved props the component reads. */
  datatype Props = Props(children: Children, closed: bool, transitionOnAppear: bool, className: Option<string>)

  /** Applies `defaultProps`: an absent `closed` is false and an absent
      `transitionOnAppear` is true. */
  function WithDefaults(children: Children, closed: Option<bool>, transitionOnAppear: Option<bool>,
                        className: Option<string>): (p: Props)
    ensures p.children == children && p.className == className
    ensures p.closed <==> closed == Some(true)
    ensures !p.transitionOnAppear <==> transitionOnAppear == Some(false)
  {
    Props(children,
          if closed.Some? then closed.value else false,
          if transitionOnAppear.Some? then transitionOnAppear.value else true,
          className)
  }

  /** `className` is truthy: given and not the empty string. */
  predicate HasClassName(className: Option<string>) {
    className.Some? && className.value != ""
  }

  /** The class attribute of the container: the component's own class, then
      the caller's, if any. */
  function ContainerClassName(className: Option<string>): (r: string)
    ensures StartsWith(r, "react-slidedown")
    ensures r == "react-slidedown" <==> !HasClassName(className)
    ensures HasClassName(className) ==> r == "react-slidedown " + className.value
  {
    if HasClassName(className) then "react-slidedown " + className.value else "react-slidedown"
  }

  // ---------------------------------------------------------------- state

  datatype State = State(children: Children, leaving: bool)

  /** Content is only ever "leaving" while there is content to show. */
  predicate StateInvariant(s: State) {
    s.leaving ==> s.children.Present?
  }

  /** `getDerivedStateFromProps`: None stands for returning `null` (no
      change). */
  function DerivedState(p: Props, s: State): (r: Option<State>)
    ensures r.None? <==> p.children.Absent? && s.children.Absent?
    ensures r.Some? ==> r.value.children.Present?
  {
    if p.children.Present? then Some(State(p.children, false))
    else if s.children.Present? then Some(State(s.children, true))
    else None
  }

  /** How React applies a derived-state result: `null` keeps the state, an
      object is merged in (here it always sets both fields). */
  function Merge(s: State, d: Option<State>): State {
    if d.Some? then d.value else s
  }

  /** New props keep the invariant; the component shows the new content when
      there is some and otherwise keeps the old content, which is then
      leaving. */
  lemma DerivedStateSpec(p: Props, s: State)
    requires StateInvariant(s)
    ensures var t := Merge(s, DerivedState(p, s));
      && StateInvariant(t)
      && t.children == (if p.children.Present? then p.children else s.children)
      && (t.leaving <==> p.children.Absent? && s.children.Present?)
  {
  }

  /** The state is what `getDerivedStateFromProps` would leave as it is
      for the current props. */
  predicate Synced(p: Props, s: State) {
    Merge(s, DerivedState(p, s)) == s
  }

  /** Deriving the state twice from the same props changes nothing more:
      the derived state is always in sync with its props. */
  lemma DerivedStateIdempotent(p: Props, s: State)
    ensures Synced(p, Merge(s, DerivedState(p, s)))
  {
  }

  /** The state after a height transition ends: leaving content is dropped. */
  function AfterTransitionEnd(s: State): (t: State)
    ensures StateInvariant(t) && !t.leaving
    ensures t.children == (if s.leaving then Absent else s.children)
  {
    if s.leaving then State(Absent, false) else s
  }

  /** Dropping the leaving content keeps the state in sync with the props,
      so the derived-state run React makes for that `setState` is a no-op. */
  lemma TransitionEndKeepsSynced(p: Props, s: State)
    requires StateInvariant(s) && Synced(p, s)
    ensures Synced(p, AfterTransitionEnd(s))
  {
  }

  // ---------------------------------------------------------------- element

  /** What the component controls of its outer element. */
  datatype ElementView = ElementView(classes: set<string>, height: Height, transitionProperty: string)

  /** A transition is running exactly when `transitioning` is set, and the
      element's `transition-property` is then `height`. */
  predicate Coherent(v: ElementView) {
    ("transitioning" in v.classes) <==> v.transitionProperty == "height"
  }

  /** The element is at rest: no transition class, transitions off. */
  predicate Settled(v: ElementView) {
    "transitioning" !in v.classes && v.transitionProperty == "none"
  }

  /** `startTransition` opens the element only when it is not closed, its
      content is not leaving and there is content. */
  predicate Opening(p: Props, s: State) {
    !p.closed && !s.leaving && s.children.Present?
  }

  /** The height `startTransition` animates to: the measured natural height
      when opening, `0px` otherwise. */
  function TargetHeight(p: Props, s: State, measured: Height): Height {
    if Opening(p, s) then measured else ZeroPx
  }

  /** `startTransition(prevHeight)`: when opening, drop `closed` and set the
      height to `auto` (to measure it); then, if the target differs from
      `prevHeight` at two decimals, mark the element transitioning and
      animate the height from `prevHeight` to the target. */
  function StartTransitionEffect(v: ElementView, p: Props, s: State, prevHeight: Height, measured: Height)
    : (r: ElementView)
    ensures Opening(p, s) ==> "closed" !in r.classes
    ensures !Opening(p, s) ==> ("closed" in r.classes <==> "closed" in v.classes)
    ensures Fixed2(TargetHeight(p, s, measured)) != Fixed2(prevHeight) ==>
              "transitioning" in r.classes && r.transitionProperty == "height"
              && r.height == TargetHeight(p, s, measured)
    ensures Fixed2(TargetHeight(p, s, measured)) == Fixed2(prevHeight) ==>
              r.transitionProperty == v.transitionProperty
              && ("transitioning" in r.classes <==> "transitioning" in v.classes)
              && r.height == (if Opening(p, s) then Auto else v.height)
    ensures r.classes - {"closed", "transitioning"} == v.classes - {"closed", "transitioning"}
    ensures Coherent(v) ==> Coherent(r)
  {
    var shown := if Opening(p, s) then v.(classes := v.classes - {"closed"}, height := Auto) else v;
    var target := TargetHeight(p, s, measured);
    if Fixed2(target) != Fixed2(prevHeight) then
      shown.(classes := shown.classes + {"transitioning"}, height := target, transitionProperty := "height")
    else shown
  }

  /** `endTransition`: stop transitioning, rest at `0px` when closed and at
      `auto` otherwise, and mark the element `closed` when it is closed or
      has no content. */
  function EndTransitionEffect(v: ElementView, p: Props, s: State): (r: ElementView)
    ensures Settled(r) && Coherent(r)
    ensures r.height == (if p.closed then ZeroPx else Auto)
    ensures "closed" in r.classes <==> p.closed || s.children.Absent? || "closed" in v.classes
    ensures r.classes - {"closed", "transitioning"} == v.classes - {"closed", "transitioning"}
  {
    var rest := v.(classes := v.classes - {"transitioning"}, transitionProperty := "none",
                   height := if p.closed then ZeroPx else Auto);
    if p.closed || s.children.Absent? then rest.(classes := rest.classes + {"closed"}) else rest
  }

  /** `componentDidMount`: start closed at `0px` when closed or empty;
      otherwise grow from `0px` when `transitionOnAppear`, else show at
      `auto`. */
  function MountEffect(v: ElementView, p: Props, s: State, measured: Height): (r: ElementView)
    ensures p.closed || p.children.Absent? ==>
              r.classes == v.classes + {"closed"} && r.height == ZeroPx
              && r.transitionProperty == v.transitionProperty
    ensures !p.closed && p.children.Present? && !p.transitionOnAppear ==>
              r.classes == v.classes && r.height == Auto && r.transitionProperty == v.transitionProperty
    ensures !p.closed && p.children.Present? && p.transitionOnAppear && s == State(p.children, false) ==>
              "closed" !in r.classes
              && r.classes - {"closed", "transitioning"} == v.classes - {"closed", "transitioning"}
              && (Fixed2(measured) != Some(0) ==>
                    "transitioning" in r.classes && r.transitionProperty == "height" && r.height == measured)
              && (Fixed2(measured) == Some(0) ==>
                    r.height == Auto && r.transitionProperty == v.transitionProperty
                    && ("transitioning" in r.classes <==> "transitioning" in v.classes))
    ensures Coherent(v) ==> Coherent(r)
  {
    if p.closed || p.children.Absent? then v.(classes := v.classes + {"closed"}, height := ZeroPx)
    else if p.transitionOnAppear then StartTransitionEffect(v, p, s, ZeroPx, measured)
    else v.(height := Auto)
  }

  /** The height recorded before an update, `0px` when there was none. */
  function PrevHeight(snapshot: Option<Height>): Height {
    if snapshot.Some? then snapshot.value else ZeroPx
  }

  /** Appearing open: mounting with content and `transitionOnAppear` animates
      from `0px` to the measured height; when that transition ends the
      element is open, at rest, and at `auto`. */
  lemma AppearOpens(v: ElementView, p: Props, h: int)
    requires p.children.Present? && !p.closed && p.transitionOnAppear && h != 0
    ensures var s := State(p.children, false);
      var mounted := MountEffect(v, p, s, Px(h));
      var ended := EndTransitionEffect(mounted, p, AfterTransitionEnd(s));
      && "transitioning" in mounted.classes && mounted.height == Px(h)
      && "closed" !in mounted.classes
      && Settled(ended) && ended.height == Auto && "closed" !in ended.classes
  {
  }

  /** Content removed while open: the old content is kept and collapses to
      `0px`; when the collapse ends the content is dropped and the element is
      marked `closed` (its height is `auto` again, since `closed` is false). */
  lemma ContentLeaves(v: ElementView, p: Props, s: State, h: int, measured: Height)
    requires s.children.Present? && p.children.Absent? && !p.closed && h != 0
    ensures var leaving := Merge(s, DerivedState(p, s));
      var collapsing := StartTransitionEffect(v, p, leaving, Px(h), measured);
      var after := AfterTransitionEnd(leaving);
      var ended := EndTransitionEffect(collapsing, p, after);
      && leaving == State(s.children, true)
      && collapsing.height == ZeroPx && "transitioning" in collapsing.classes
      && after == State(Absent, false)
      && Settled(ended) && "closed" in ended.classes && ended.height == Auto
  {
  }

  /** Closing by the `closed` prop: the content stays, the element collapses
      to `0px` and ends `closed` at `0px`. */
  lemma ClosingCollapses(v: ElementView, p: Props, s: State, h: int, measured: Height)
    requires StateInvariant(s) && p.children.Present? && p.closed && h != 0
    ensures var t := Merge(s, DerivedState(p, s));
      var collapsing := StartTransitionEffect(v, p, t, Px(h), measured);
      var ended := EndTransitionEffect(collapsing, p, AfterTransitionEnd(t));
      && t == State(p.children, false)
      && collapsing.height == ZeroPx && "transitioning" in collapsing.classes
      && Settled(ended) && "closed" in ended.classes && ended.height == ZeroPx
  {
  }

  // ---------------------------------------------------------------- objects

  /** The outer DOM element, reduced to what the component touches. */
  class Element {
    var classes: set<string>
    var height: Height
    var transitionProperty: string

    function View(): ElementView
      reads this
    {
      ElementView(classes, height, transitionProperty)
    }

    /** A freshly rendered element: the given classes, no inline height and
        no inline `transition-property`. */
    constructor (initialClasses: set<string>)
      ensures View() == ElementView(initialClasses, Unset, "")
    {
      classes, height, transitionProperty := initialClasses, Unset, "";
    }

    /** `classList.add(c)`. */
    method AddClass(c: string)
      modifies this
      ensures View() == old(View()).(classes := old(classes) + {c})
    {
      classes := classes + {c};
    }

    /** `classList.remove(c)`. */
    method RemoveClass(c: string)
      modifies this
      ensures View() == old(View()).(classes := old(classes) - {c})
    {
      classes := classes - {c};
    }

    /** `style.height = h`. */
    method SetHeight(h: Height)
      modifies this
      ensures View() == old(View()).(height := h)
    {
      height := h;
    }

    /** `style.transitionProperty = t`. */
    method SetTransitionProperty(t: string)
      modifies this
      ensures View() == old(View()).(transitionProperty := t)
    {
      transitionProperty := t;
    }
  }

  /** The component instance: its props, its state, and `outerRef` (null
      until the element is attached). */
  class SlideDownContent {
    var props: Props
    var state: State
    var outer: Element?

    ghost predicate Valid()
      reads this, outer
    {
      StateInvariant(state) && Synced(props, state) && (outer != null ==> Coherent(outer.View()))
    }

    /** The constructor: the state starts with the initial content, not
        leaving. */
    constructor (p: Props)
      ensures props == p && state == State(p.children, false) && outer == null
      ensures Valid()
    {
      props, state, outer := p, State(p.children, false), null;
    }

    /** The ref callback: records the rendered element (or null). */
    method AttachRef(e: Element?)
      requires Valid()
      requires e != null ==> Coherent(e.View())
      modifies this
      ensures outer == e && props == old(props) && state == old(state)
      ensures Valid()
    {
      outer := e;
    }

    /** A render with new props: React stores them and merges in what
        `getDerivedStateFromProps` derives from them. */
    method ReceiveProps(p: Props)
      requires Valid()
      modifies this
      ensures props == p && state == Merge(old(state), DerivedState(p, old(state)))
      ensures outer == old(outer)
      ensures Valid()
    {
      DerivedStateSpec(p, state);
      DerivedStateIdempotent(p, state);
      props := p;
      state := Merge(state, DerivedState(p, state));
    }

    method StartTransition(prevHeight: Height, measured: Height)
      requires Valid()
      modifies outer
      ensures outer != null ==>
        outer.View() == StartTransitionEffect(old(outer.View()), props, state, prevHeight, measured)
      ensures Valid()
    {
      if outer == null {
        return;
      }
      var endHeight := ZeroPx;
      if !props.closed && !state.leaving && state.children.Present? {
        outer.RemoveClass("closed");
        outer.SetHeight(Auto);
        endHeight := measured;
      }
      if Fixed2(endHeight) != Fixed2(prevHeight) {
        outer.AddClass("transitioning");
        outer.SetHeight(prevHeight);
        outer.SetTransitionProperty("height");
        outer.SetHeight(endHeight);
      }
    }

    method EndTransition()
      requires Valid()
      modifies outer
      ensures outer != null ==> outer.View() == EndTransitionEffect(old(outer.View()), props, state)
      ensures Valid()
    {
      if outer == null {
        return;
      }
      outer.RemoveClass("transitioning");
      outer.SetTransitionProperty("none");
      outer.SetHeight(if props.closed then ZeroPx else Auto);
      if props.closed || state.children.Absent? {
        outer.AddClass("closed");
      }
    }

    method ComponentDidMount(measured: Height)
      requires Valid()
      modifies outer
      ensures outer != null ==> outer.View() == MountEffect(old(outer.View()), props, state, measured)
      ensures Valid()
    {
      if outer != null {
        if props.closed || props.children.Absent? {
          outer.AddClass("closed");
          outer.SetHeight(ZeroPx);
        } else if props.transitionOnAppear {
          StartTransition(ZeroPx, measured);
        } else {
          outer.SetHeight(Auto);
        }
      }
    }

    /** `componentDidUpdate`: animate from the height recorded before the
        update. */
    method ComponentDidUpdate(snapshot: Option<Height>, measured: Height)
      requires Valid()
      modifies outer
      ensures outer != null ==>
        outer.View() == StartTransitionEffect(old(outer.View()), props, state, PrevHeight(snapshot), measured)
      ensures Valid()
    {
      if outer != null {
        StartTransition(PrevHeight(snapshot), measured);
      }
    }

    /** `handleTransitionEnd`: reacts only to the end of the outer element's
        height transition; leaving content is dropped before the transition
        is ended. */
    method HandleTransitionEnd(target: Element, propertyName: string)
      requires Valid()
      modifies this, outer
      ensures props == old(props) && outer == old(outer)
      ensures target == outer && propertyName == "height" ==>
        state == AfterTransitionEnd(old(state))
        && outer.View() == EndTransitionEffect(old(outer.View()), props, state)
      ensures !(target == outer && propertyName == "height") ==>
        state == old(state) && (outer != null ==> outer.View() == old(outer.View()))
      ensures Valid()
    {
      if target == outer && propertyName == "height" {
        if state.leaving {
          TransitionEndKeepsSynced(props, state);
          state := State(Absent, false);
        }
        EndTransition();
      }
    }
  }
}
