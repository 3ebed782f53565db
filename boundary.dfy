/** The package-boundary walk of the current analyser: from an absolute path,
    climb parent by parent while the parent directory holds `__init__.py`, and
    return the first parent that does not. `markers` is the set of directories
    holding an `__init__.py`. */
module PackageBoundary {
  import opened Py
  import opened Paths

  /** Depth of the first directory the walk inspects: the input's parent. */
  function FirstInspected(p: Path): nat {
    if |p.parts| == 0 then 0 else |p.parts| - 1
  }

  /** The walk inspects the ancestors at depths FirstInspected(p) down to 0,
      and then the root again forever (the parent of the root is the root).
      It stops exactly when one of those lacks a marker. */
  predicate WalkStops(p: Path, markers: set<Path>) {
    exists d :: 0 <= d <= FirstInspected(p) && Ancestor(p, d) !in markers
  }

  /** One step up keeps the walk stopping, and ancestors of the parent are
      ancestors of the path. */
  lemma StepUp(p: Path, markers: set<Path>)
    requires WalkStops(p, markers) && Parent(p) in markers
    ensures |p.parts| > 0
    ensures forall k :: 0 <= k <= |Parent(p).parts| ==> Ancestor(Parent(p), k) == Ancestor(p, k)
    ensures WalkStops(Parent(p), markers)
  {
    var d :| 0 <= d <= FirstInspected(p) && Ancestor(p, d) !in markers;
    if |p.parts| == 0 {
      assert false;
    }
    assert Parent(p) == Ancestor(p, |p.parts| - 1);
    assert d < |p.parts| - 1;
    assert Ancestor(Parent(p), d) == Ancestor(p, d);
  }

  /** Depth of the directory the walk returns: the nearest ancestor above the
      input that holds no marker. */
  function BoundaryDepth(p: Path, markers: set<Path>): (d: nat)
    requires WalkStops(p, markers)
    ensures d <= FirstInspected(p)
    ensures Ancestor(p, d) !in markers
    ensures forall k :: d < k <= FirstInspected(p) ==> Ancestor(p, k) in markers
    ensures Parent(p) !in markers ==> Ancestor(p, d) == Parent(p)
    decreases |p.parts|
  {
    if Parent(p) !in markers then FirstInspected(p)
    else
      StepUp(p, markers);
      BoundaryDepth(Parent(p), markers)
  }

  /** The directory `find_package_boundary` returns. */
  function NearestUnmarked(p: Path, markers: set<Path>): Path
    requires WalkStops(p, markers)
  {
    Ancestor(p, BoundaryDepth(p, markers))
  }

  /** `find_package_boundary(absolute_path)`. */
  method FindPackageBoundary(p: Path, markers: set<Path>) returns (r: Result<Path>)
    requires p.absolute ==> WalkStops(p, markers)
    ensures !p.absolute ==> r == Err(Exception(AssertionError, ""))
    ensures p.absolute ==> r == Ok(NearestUnmarked(p, markers))
  {
    if !p.absolute {
      return Err(Exception(AssertionError, ""));
    }
    var path := p;
    while true
      invariant |path.parts| <= |p.parts| && path == Ancestor(p, |path.parts|)
      invariant WalkStops(path, markers)
      invariant NearestUnmarked(path, markers) == NearestUnmarked(p, markers)
      decreases |path.parts|
    {
      if Parent(path) !in markers {
        return Ok(Parent(path));
      }
      StepUp(path, markers);
      path := Parent(path);
    }
  }

  /** Whatever depth has the two properties of a boundary (no marker itself,
      a marker on every inspected directory below it) is the one returned. */
  lemma BoundaryIsNearestUnmarked(p: Path, markers: set<Path>, d: nat)
    requires d <= FirstInspected(p) && Ancestor(p, d) !in markers
    requires forall k :: d < k <= FirstInspected(p) ==> Ancestor(p, k) in markers
    ensures WalkStops(p, markers)
    ensures NearestUnmarked(p, markers) == Ancestor(p, d)
  {
  }
}

/** The older walk: climb while the parent holds `__init__.py`, and return the
    path itself (not its parent) once the parent holds none, i.e. the topmost
    path that is still inside the package. */
module PackageBoundaryLegacy {
  import opened Paths
  import PackageBoundary

  /** Depth of the path `find_package_boundary` returns. */
  function TopmostDepth(p: Path, markers: set<Path>): (d: nat)
    requires PackageBoundary.WalkStops(p, markers)
    ensures d <= |p.parts|
    ensures Parent(Ancestor(p, d)) !in markers
    ensures forall k :: d < k <= |p.parts| ==> Parent(Ancestor(p, k)) in markers
    ensures Parent(p) !in markers ==> d == |p.parts|
    decreases |p.parts|
  {
    assert Ancestor(p, |p.parts|) == p;
    if Parent(p) !in markers then |p.parts|
    else
      PackageBoundary.StepUp(p, markers);
      TopmostDepth(Parent(p), markers)
  }

  function TopmostPackagePath(p: Path, markers: set<Path>): Path
    requires PackageBoundary.WalkStops(p, markers)
  {
    Ancestor(p, TopmostDepth(p, markers))
  }

  /** `find_package_boundary(path)`; it loops forever unless the walk stops. */
  method FindPackageBoundary(p: Path, markers: set<Path>) returns (r: Path)
    requires PackageBoundary.WalkStops(p, markers)
    ensures r == TopmostPackagePath(p, markers)
  {
    var path := p;
    while true
      invariant |path.parts| <= |p.parts| && path == Ancestor(p, |path.parts|)
      invariant PackageBoundary.WalkStops(path, markers)
      invariant TopmostPackagePath(path, markers) == TopmostPackagePath(p, markers)
      decreases |path.parts|
    {
      if Parent(path) !in markers {
        return path;
      }
      PackageBoundary.StepUp(path, markers);
      path := Parent(path);
    }
  }

  /** The two versions agree up to one level: the current walk returns the
      parent of what the older walk returns. */
  lemma {:induction false} CurrentIsParentOfLegacy(p: Path, markers: set<Path>)
    requires PackageBoundary.WalkStops(p, markers)
    ensures PackageBoundary.NearestUnmarked(p, markers) == Parent(TopmostPackagePath(p, markers))
    decreases |p.parts|
  {
    if Parent(p) in markers {
      PackageBoundary.StepUp(p, markers);
      CurrentIsParentOfLegacy(Parent(p), markers);
    }
  }
}
