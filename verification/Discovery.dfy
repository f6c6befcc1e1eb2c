/** Which input devices the program opens: the keyboards, the ones it was told to, and
    the media keys of a keyboard it has - whatever order it comes upon them. */
module Discovery {
  import opened Keycodes
  import Ledger
  import LedgerInvariant

  type Path = Ledger.Path

  const KEY_POWER: Keycode := 116

  /** All of these, and a device counts as a keyboard. */
  const KEYBOARD_SIGNATURE: set<Keycode> := {16, 17, 18, 30, 31, 32, 44, 45, 46, 28, 57}

  /** What can be asked of a device once it is open; the physical path is already cut
      at its last interface number. */
  datatype Node = Node(keys: set<Keycode>, phys: string)

  /** The nodes that open, by real path, and where the symbolic links lead. */
  datatype Directory = Directory(nodes: map<Path, Node>, links: map<Path, Path>)

  function Real(dir: Directory, path: Path): Path {
    if path in dir.links then dir.links[path] else path
  }

  predicate IsKeyboard(node: Node) { KEYBOARD_SIGNATURE <= node.keys }

  /** Another interface of a keyboard being taken: with keys worth forwarding, and
      never one that can power the machine off. */
  predicate IsCompanion(node: Node, roots: set<string>) {
    && node.phys != "" && node.phys in roots
    && KEY_POWER !in node.keys
    && exists k :: k in CONSUMER && k in node.keys
  }

  datatype Found = Found(path: Path, target: Path)

  /** What the first pass has come to. */
  datatype Scan = Scan(devices: seq<Found>, spare: seq<Found>, present: seq<Path>, seen: set<Path>)

  /** A keyboard already held: the path it goes by, and where it is attached. */
  datatype Held = Held(path: Path, phys: string)

  function Wanted(dir: Directory, extra: seq<Path>): set<Path> {
    set path | path in extra :: Real(dir, path)
  }

  function HeldByReal(dir: Directory, known: seq<Held>): map<Path, Held> {
    if known == [] then map[]
    else HeldByReal(dir, known[..|known| - 1])[Real(dir, known[|known| - 1].path) := known[|known| - 1]]
  }

  function ScanOne(dir: Directory, wanted: set<Path>, held: map<Path, Held>, s: Scan, path: Path): Scan {
    var target := Real(dir, path);
    var seen := s.seen + {target};
    if target in s.seen then s
    else if target in held then s.(seen := seen, present := s.present + [held[target].path])
    else if target !in dir.nodes then s.(seen := seen)
    else if IsKeyboard(dir.nodes[target]) || target in wanted then
      s.(seen := seen, present := s.present + [path], devices := s.devices + [Found(path, target)])
    else s.(seen := seen, present := s.present + [path], spare := s.spare + [Found(path, target)])
  }

  function ScanAll(dir: Directory, wanted: set<Path>, held: map<Path, Held>, paths: seq<Path>): Scan {
    if paths == [] then Scan([], [], [], {})
    else ScanOne(dir, wanted, held, ScanAll(dir, wanted, held, paths[..|paths| - 1]), paths[|paths| - 1])
  }

  predicate InDirectory(dir: Directory, found: seq<Found>) {
    forall i :: 0 <= i < |found| ==> found[i].target in dir.nodes
  }

  /** Where the keyboards are attached that we have or are taking. */
  function Roots(dir: Directory, held: map<Path, Held>, devices: seq<Found>): set<string>
    requires InDirectory(dir, devices)
  {
    (set target | target in held && held[target].phys != "" :: held[target].phys)
    + (set i | 0 <= i < |devices| && dir.nodes[devices[i].target].phys != "" :: dir.nodes[devices[i].target].phys)
  }

  /** The spare ones that are companions after all, and can be opened again. */
  function Companions(dir: Directory, roots: set<string>, gone: set<Path>, spare: seq<Found>): seq<Found>
    requires InDirectory(dir, spare)
  {
    if spare == [] then []
    else
      var front, last := Companions(dir, roots, gone, spare[..|spare| - 1]), spare[|spare| - 1];
      if IsCompanion(dir.nodes[last.target], roots) && last.target !in gone then front + [last] else front
  }

  function Targets(dir: Directory, extra: seq<Path>, paths: seq<Path>, known: seq<Held>, gone: set<Path>): seq<Found> {
    var held := HeldByReal(dir, known);
    var s := ScanAll(dir, Wanted(dir, extra), held, paths);
    ScanStays(dir, Wanted(dir, extra), held, paths);
    s.devices + Companions(dir, Roots(dir, held, s.devices), gone, s.spare)
  }

  // -- the first pass ----------------------------------------------------------

  predicate HasReal(found: seq<Found>, target: Path) {
    exists i :: 0 <= i < |found| && found[i].target == target
  }

  lemma HasRealNext(found: seq<Found>, one: Found, target: Path)
    ensures HasReal(found + [one], target) <==> HasReal(found, target) || one.target == target
  {
    var longer := found + [one];
    if HasReal(found, target) {
      var i :| 0 <= i < |found| && found[i].target == target;
      assert longer[i].target == target;
    }
    assert longer[|found|] == one;
  }

  ghost predicate OnceEach(found: seq<Found>) {
    forall i, j :: 0 <= i < j < |found| ==> found[i].target != found[j].target
  }

  /** Come upon by some path. */
  ghost predicate Listed(dir: Directory, paths: seq<Path>, target: Path) {
    exists i :: 0 <= i < |paths| && Real(dir, paths[i]) == target
  }

  lemma ListedNext(dir: Directory, paths: seq<Path>, path: Path, target: Path)
    ensures Listed(dir, paths + [path], target) <==> Listed(dir, paths, target) || Real(dir, path) == target
  {
    var longer := paths + [path];
    if Listed(dir, paths, target) {
      var i :| 0 <= i < |paths| && Real(dir, paths[i]) == target;
      assert longer[i] == paths[i];
    }
    assert longer[|paths|] == path;
  }

  /** A node the first pass opens. */
  predicate Opens(dir: Directory, held: map<Path, Held>, target: Path) {
    target in dir.nodes && target !in held
  }

  /** And takes at once. */
  predicate TakenAtOnce(dir: Directory, wanted: set<Path>, held: map<Path, Held>, target: Path) {
    Opens(dir, held, target) && (HasSignature(dir.nodes[target]) || target in wanted)
  }

  ghost predicate Sorted(dir: Directory, wanted: set<Path>, held: map<Path, Held>, paths: seq<Path>, s: Scan,
      target: Path) {
    && (target in s.seen <==> Listed(dir, paths, target))
    && (HasReal(s.devices, target) <==> Listed(dir, paths, target) && TakenAtOnce(dir, wanted, held, target))
    && (HasReal(s.spare, target) <==>
          Listed(dir, paths, target) && Opens(dir, held, target) && !TakenAtOnce(dir, wanted, held, target))
  }

  lemma {:induction false} ScanSorts(dir: Directory, wanted: set<Path>, held: map<Path, Held>, paths: seq<Path>,
      target: Path)
    ensures Sorted(dir, wanted, held, paths, ScanAll(dir, wanted, held, paths), target)
    decreases |paths|
  {
    if paths != [] {
      var front, path := paths[..|paths| - 1], paths[|paths| - 1];
      var s := ScanAll(dir, wanted, held, front);
      assert paths == front + [path];
      ListedNext(dir, front, path, target);
      ScanSorts(dir, wanted, held, front, target);
      ScanSorts(dir, wanted, held, front, Real(dir, path));
      HasRealNext(s.devices, Found(path, Real(dir, path)), target);
      HasRealNext(s.spare, Found(path, Real(dir, path)), target);
    }
  }

  lemma {:induction false} ScanStays(dir: Directory, wanted: set<Path>, held: map<Path, Held>, paths: seq<Path>)
    ensures var s := ScanAll(dir, wanted, held, paths); InDirectory(dir, s.devices) && InDirectory(dir, s.spare)
    decreases |paths|
  {
    if paths != [] {
      ScanStays(dir, wanted, held, paths[..|paths| - 1]);
    }
  }

  lemma {:induction false} ScanOnce(dir: Directory, wanted: set<Path>, held: map<Path, Held>, paths: seq<Path>)
    ensures var s := ScanAll(dir, wanted, held, paths); OnceEach(s.devices) && OnceEach(s.spare)
    decreases |paths|
  {
    if paths != [] {
      var front, path := paths[..|paths| - 1], paths[|paths| - 1];
      var s := ScanAll(dir, wanted, held, front);
      ScanOnce(dir, wanted, held, front);
      ScanSorts(dir, wanted, held, front, Real(dir, path));
      assert Real(dir, path) !in s.seen ==>
        forall i :: 0 <= i < |s.devices| ==> s.devices[i].target != Real(dir, path);
      assert Real(dir, path) !in s.seen ==>
        forall i :: 0 <= i < |s.spare| ==> s.spare[i].target != Real(dir, path);
    }
  }

  lemma {:induction false} CompanionsAre(dir: Directory, roots: set<string>, gone: set<Path>, spare: seq<Found>,
      target: Path)
    requires InDirectory(dir, spare)
    ensures HasReal(Companions(dir, roots, gone, spare), target) <==>
      HasReal(spare, target) && IsCompanion(dir.nodes[target], roots) && target !in gone
    decreases |spare|
  {
    if spare != [] {
      var front, last := spare[..|spare| - 1], spare[|spare| - 1];
      assert spare == front + [last];
      CompanionsAre(dir, roots, gone, front, target);
      HasRealNext(front, last, target);
      HasRealNext(Companions(dir, roots, gone, front), last, target);
    }
  }

  lemma {:induction false} CompanionsOnce(dir: Directory, roots: set<string>, gone: set<Path>, spare: seq<Found>)
    requires InDirectory(dir, spare) && OnceEach(spare)
    ensures OnceEach(Companions(dir, roots, gone, spare))
    decreases |spare|
  {
    if spare != [] {
      var front, last := spare[..|spare| - 1], spare[|spare| - 1];
      CompanionsOnce(dir, roots, gone, front);
      CompanionsAre(dir, roots, gone, front, last.target);
      assert !HasReal(front, last.target) by {
        assert forall i :: 0 <= i < |front| ==> front[i] == spare[i];
      }
    }
  }

  // -- what is there -----------------------------------------------------------

  lemma {:induction false} HeldIsReal(dir: Directory, known: seq<Held>, target: Path)
    requires target in HeldByReal(dir, known)
    ensures Real(dir, HeldByReal(dir, known)[target].path) == target
    decreases |known|
  {
    if target != Real(dir, known[|known| - 1].path) {
      HeldIsReal(dir, known[..|known| - 1], target);
    }
  }

  /** The last of the keyboards held whose path leads there. */
  ghost predicate LastHeld(dir: Directory, known: seq<Held>, target: Path, i: nat) {
    && i < |known| && Real(dir, known[i].path) == target
    && forall j :: i < j < |known| ==> Real(dir, known[j].path) != target
  }

  lemma LastHeldNext(dir: Directory, known: seq<Held>, target: Path, i: nat)
    requires known != [] && i < |known| - 1 && Real(dir, known[|known| - 1].path) != target
    ensures LastHeld(dir, known, target, i) <==> LastHeld(dir, known[..|known| - 1], target, i)
  {
    assert forall j :: 0 <= j < |known| - 1 ==> known[..|known| - 1][j] == known[j];
  }

  /** A real path is held exactly if some keyboard's path leads there, and by the last such. */
  lemma {:induction false} HeldByRealIs(dir: Directory, known: seq<Held>, target: Path)
    ensures target in HeldByReal(dir, known) <==> exists i :: 0 <= i < |known| && Real(dir, known[i].path) == target
    ensures forall i: nat :: LastHeld(dir, known, target, i) ==>
      target in HeldByReal(dir, known) && HeldByReal(dir, known)[target] == known[i]
    decreases |known|
  {
    if known != [] {
      var n := |known| - 1;
      HeldByRealIs(dir, known[..n], target);
      assert forall j :: 0 <= j < n ==> known[..n][j] == known[j];
      forall i: nat | LastHeld(dir, known, target, i)
        ensures target in HeldByReal(dir, known) && HeldByReal(dir, known)[target] == known[i]
      {
        if i < n {
          LastHeldNext(dir, known, target, i);
        }
      }
    }
  }

  /** A keyboard held is listed as present exactly if some path listed leads to it. */
  lemma {:induction false} HeldIsPresent(
      dir: Directory, wanted: set<Path>, known: seq<Held>, paths: seq<Path>, target: Path)
    requires target in HeldByReal(dir, known)
    ensures HeldByReal(dir, known)[target].path in ScanAll(dir, wanted, HeldByReal(dir, known), paths).present
       <==> Listed(dir, paths, target)
    decreases |paths|
  {
    var held := HeldByReal(dir, known);
    HeldIsReal(dir, known, target);
    if paths != [] {
      var front, path := paths[..|paths| - 1], paths[|paths| - 1];
      assert paths == front + [path];
      ListedNext(dir, front, path, target);
      ScanSorts(dir, wanted, held, front, Real(dir, path));
      HeldIsPresent(dir, wanted, known, front, target);
      if Real(dir, path) in held {
        HeldIsReal(dir, known, Real(dir, path));
      }
    }
  }

  /** So is a node the first pass takes, by the path it was come upon. */
  lemma {:induction false} FoundIsPresent(dir: Directory, wanted: set<Path>, held: map<Path, Held>, paths: seq<Path>)
    ensures var s := ScanAll(dir, wanted, held, paths);
            forall one :: one in s.devices || one in s.spare ==> one.path in s.present
    decreases |paths|
  {
    if paths != [] {
      FoundIsPresent(dir, wanted, held, paths[..|paths| - 1]);
    }
  }

  // -- what is taken, whatever the order ---------------------------------------

  /** A keyboard held or being taken is attached there. */
  ghost predicate Root(dir: Directory, wanted: set<Path>, held: map<Path, Held>, paths: seq<Path>, phys: string) {
    || (exists target :: target in held && held[target].phys == phys)
    || (exists target :: (
          Listed(dir, paths, target) && TakenAtOnce(dir, wanted, held, target) && dir.nodes[target].phys == phys))
  }

  /** Every one of these keys. */
  predicate HasSignature(node: Node) { forall k :: k in KEYBOARD_SIGNATURE ==> k in node.keys }

  /** What discovery is for, with no order in it. */
  ghost predicate Belongs(
      dir: Directory, wanted: set<Path>, held: map<Path, Held>, paths: seq<Path>, gone: set<Path>, target: Path) {
    && Listed(dir, paths, target) && Opens(dir, held, target)
    && (|| HasSignature(dir.nodes[target]) || target in wanted
        || (&& dir.nodes[target].phys != "" && Root(dir, wanted, held, paths, dir.nodes[target].phys)
            && KEY_POWER !in dir.nodes[target].keys && (exists k :: k in CONSUMER && k in dir.nodes[target].keys)
            && target !in gone))
  }

  lemma RootsAre(dir: Directory, wanted: set<Path>, held: map<Path, Held>, paths: seq<Path>, phys: string)
    requires InDirectory(dir, ScanAll(dir, wanted, held, paths).devices) && phys != ""
    ensures phys in Roots(dir, held, ScanAll(dir, wanted, held, paths).devices)
       <==> Root(dir, wanted, held, paths, phys)
  {
    var devices := ScanAll(dir, wanted, held, paths).devices;
    if i :| 0 <= i < |devices| && dir.nodes[devices[i].target].phys == phys {
      ScanSorts(dir, wanted, held, paths, devices[i].target);
      assert HasReal(devices, devices[i].target);
    }
    if target :| (
      Listed(dir, paths, target) && TakenAtOnce(dir, wanted, held, target) && dir.nodes[target].phys == phys)
    {
      ScanSorts(dir, wanted, held, paths, target);
      var i :| 0 <= i < |devices| && devices[i].target == target;
    }
  }

  /** Discovery takes exactly the keyboards, the nodes asked for, and the companions of
      keyboards held or newly taken, each real path once, in whatever order and by
      whatever paths it comes upon them. */
  lemma DiscoveryIsExact(
      dir: Directory, extra: seq<Path>, paths: seq<Path>, known: seq<Held>, gone: set<Path>, target: Path)
    ensures var found := Targets(dir, extra, paths, known, gone);
            && OnceEach(found)
            && (HasReal(found, target) <==> Belongs(dir, Wanted(dir, extra), HeldByReal(dir, known), paths, gone,
                                                    target))
  {
    var wanted, held := Wanted(dir, extra), HeldByReal(dir, known);
    var s := ScanAll(dir, wanted, held, paths);
    ScanStays(dir, wanted, held, paths);
    ScanSorts(dir, wanted, held, paths, target);
    var roots := Roots(dir, held, s.devices);
    var companions := Companions(dir, roots, gone, s.spare);
    CompanionsAre(dir, roots, gone, s.spare, target);
    HasRealEither(s.devices, companions, target);
    if target in dir.nodes && dir.nodes[target].phys != "" {
      RootsAre(dir, wanted, held, paths, dir.nodes[target].phys);
    }
    ApartOnce(dir, extra, paths, known, gone);
  }

  /** A node asked for by a link, as the stable names are, is found at the end of it,
      keyboard or not, unless it is held. */
  lemma LinksAreFollowed(
      dir: Directory, extra: seq<Path>, paths: seq<Path>, known: seq<Held>, gone: set<Path>, link: Path)
    requires link in extra && link in paths && link in dir.links && dir.links[link] in dir.nodes
    requires forall i :: 0 <= i < |known| ==> Real(dir, known[i].path) != dir.links[link]
    ensures HasReal(Targets(dir, extra, paths, known, gone), dir.links[link])
  {
    var target := dir.links[link];
    assert Real(dir, link) == target && target in Wanted(dir, extra);
    HeldByRealIs(dir, known, target);
    assert Listed(dir, paths, target);
    DiscoveryIsExact(dir, extra, paths, known, gone, target);
  }

  lemma HasRealEither(a: seq<Found>, b: seq<Found>, target: Path)
    ensures HasReal(a + b, target) <==> HasReal(a, target) || HasReal(b, target)
  {
    if i :| 0 <= i < |a| && a[i].target == target {
      assert (a + b)[i] == a[i];
    }
    if i :| 0 <= i < |b| && b[i].target == target {
      assert (a + b)[|a| + i] == b[i];
    }
  }

  lemma ApartOnce(dir: Directory, extra: seq<Path>, paths: seq<Path>, known: seq<Held>, gone: set<Path>)
    ensures OnceEach(Targets(dir, extra, paths, known, gone))
  {
    var wanted, held := Wanted(dir, extra), HeldByReal(dir, known);
    var s := ScanAll(dir, wanted, held, paths);
    ScanStays(dir, wanted, held, paths);
    ScanOnce(dir, wanted, held, paths);
    var roots := Roots(dir, held, s.devices);
    var companions := Companions(dir, roots, gone, s.spare);
    CompanionsOnce(dir, roots, gone, s.spare);
    forall i, j | 0 <= i < |s.devices| && 0 <= j < |companions| ensures s.devices[i].target != companions[j].target {
      var target := companions[j].target;
      assert HasReal(companions, target);
      CompanionsAre(dir, roots, gone, s.spare, target);
      ScanSorts(dir, wanted, held, paths, target);
      assert !HasReal(s.devices, target);
    }
  }

  /** So two listings of the same paths find the same devices. */
  lemma OrderDoesNotMatter(
      dir: Directory, extra: seq<Path>, one: seq<Path>, other: seq<Path>, known: seq<Held>, gone: set<Path>,
          target: Path)
    requires forall path :: path in one <==> path in other
    ensures HasReal(Targets(dir, extra, one, known, gone), target)
       <==> HasReal(Targets(dir, extra, other, known, gone), target)
  {
    forall r ensures Listed(dir, one, r) <==> Listed(dir, other, r) {
      SamePaths(dir, one, other, r);
      SamePaths(dir, other, one, r);
    }
    DiscoveryIsExact(dir, extra, one, known, gone, target);
    DiscoveryIsExact(dir, extra, other, known, gone, target);
  }

  lemma SamePaths(dir: Directory, one: seq<Path>, other: seq<Path>, target: Path)
    requires forall path :: path in one ==> path in other
    ensures Listed(dir, one, target) ==> Listed(dir, other, target)
  {
    if Listed(dir, one, target) {
      var i :| 0 <= i < |one| && Real(dir, one[i]) == target;
      assert one[i] in other;
      var j :| 0 <= j < |other| && other[j] == one[i];
      assert Real(dir, other[j]) == target;
    }
  }

  // -- what a rescan makes of it -----------------------------------------------

  function Paths(found: seq<Found>): (paths: seq<Path>)
    ensures |paths| == |found| && forall i :: 0 <= i < |paths| ==> paths[i] == found[i].path
  {
    seq(|found|, i requires 0 <= i < |found| => found[i].path)
  }

  /** What the set of keyboards is told. */
  function AsListing(found: seq<Found>, present: seq<Path>): Ledger.Listing {
    Ledger.Listing(Paths(found), set path | path in present)
  }

  /** A keyboard of the set stays through a rescan exactly if some path listed leads to
      it. */
  lemma RescanKeepsListed(
      dir: Directory, extra: seq<Path>, paths: seq<Path>, known: seq<Held>, gone: set<Path>,
      ks: Ledger.Keyboards, d: Ledger.Device, asleep: bool)
    requires d in ks.devices
    requires exists i: nat :: LastHeld(dir, known, Real(dir, d.path), i) && known[i].path == d.path
    ensures var present := ScanAll(dir, Wanted(dir, extra), HeldByReal(dir, known), paths).present;
            var listing := AsListing(Targets(dir, extra, paths, known, gone), present);
            d in Ledger.Rescanned(ks, listing, asleep).devices <==> Listed(dir, paths, Real(dir, d.path))
  {
    var present := ScanAll(dir, Wanted(dir, extra), HeldByReal(dir, known), paths).present;
    var listing := AsListing(Targets(dir, extra, paths, known, gone), present);
    HeldByRealIs(dir, known, Real(dir, d.path));
    HeldIsPresent(dir, Wanted(dir, extra), known, paths, Real(dir, d.path));
    LedgerInvariant.DiscoveringHolds(ks, listing.found, asleep);
    var all := Ledger.Discovered(ks, listing.found, asleep);
    LedgerInvariant.KeptMeet(all, Ledger.Among(listing.present));
    if d.path in present {
      LedgerInvariant.KeepingHolds(all, Ledger.Among(listing.present), d);
    }
  }

  // -- with descriptors --------------------------------------------------------

  /** The descriptors the process has open. */
  class Files {
    var open: set<nat>
    var next: nat

    constructor ()
      ensures open == {} && next == 0
    {
      open, next := {}, 0;
    }

    ghost predicate Valid()
      reads this
    {
      forall fd :: fd in open ==> fd < next
    }

    method Open() returns (fd: nat)
      requires Valid()
      modifies this
      ensures Valid() && fd == old(next) && fd !in old(open) && open == old(open) + {fd}
    {
      fd := next;
      open, next := open + {fd}, next + 1;
    }

    method Close(fd: nat)
      requires Valid()
      modifies this`open
      ensures Valid() && open == old(open) - {fd}
    {
      open := open - {fd};
    }
  }

  datatype Device = Device(found: Found, fd: nat)

  function FoundOf(devices: seq<Device>): (found: seq<Found>)
    ensures |found| == |devices| && forall i :: 0 <= i < |found| ==> found[i] == devices[i].found
  {
    seq(|devices|, i requires 0 <= i < |devices| => devices[i].found)
  }

  function Descriptors(devices: seq<Device>): set<nat> {
    set i | 0 <= i < |devices| :: devices[i].fd
  }

  lemma OneMoreOpen(devices: seq<Device>, device: Device)
    ensures Descriptors(devices + [device]) == Descriptors(devices) + {device.fd}
    ensures FoundOf(devices + [device]) == FoundOf(devices) + [device.found]
  {
    var longer := devices + [device];
    assert longer[|devices|] == device;
    assert forall i :: 0 <= i < |devices| ==> longer[i] == devices[i];
  }

  /** What the first pass leaves: the devices it took open, and nothing else. */
  ghost predicate Passed(before: set<nat>, files: Files, s: Scan, devices: seq<Device>, spare: seq<Found>,
      present: seq<Path>, seen: set<Path>)
    reads files
  {
    && files.Valid() && files.open == before + Descriptors(devices)
    && FoundOf(devices) == s.devices && spare == s.spare && present == s.present && seen == s.seen
  }

  method FirstPass(dir: Directory, wanted: set<Path>, held: map<Path, Held>, paths: seq<Path>, files: Files)
    returns (devices: seq<Device>, spare: seq<Found>, present: seq<Path>)
    requires files.Valid()
    modifies files
    ensures Passed(old(files.open), files, ScanAll(dir, wanted, held, paths), devices, spare, present,
                   ScanAll(dir, wanted, held, paths).seen)
  {
    devices, spare, present := [], [], [];
    var seen: set<Path> := {};
    ghost var before := files.open;
    for i := 0 to |paths|
      invariant Passed(before, files, ScanAll(dir, wanted, held, paths[..i]), devices, spare, present, seen)
    {
      assert paths[..i + 1][..i] == paths[..i];
      var path, target := paths[i], Real(dir, paths[i]);
      if target in seen {
        continue;
      }
      seen := seen + {target};
      if target in held {
        present := present + [held[target].path];
        continue;
      }
      if target !in dir.nodes {
        continue;
      }
      var fd := files.Open();
      present := present + [path];
      if IsKeyboard(dir.nodes[target]) || target in wanted {
        OneMoreOpen(devices, Device(Found(path, target), fd));
        devices := devices + [Device(Found(path, target), fd)];
      } else {
        files.Close(fd);
        spare := spare + [Found(path, target)];
      }
    }
    assert paths[..|paths|] == paths;
  }

  method SecondPass(dir: Directory, roots: set<string>, gone: set<Path>, spare: seq<Found>, files: Files)
    returns (devices: seq<Device>)
    requires files.Valid() && InDirectory(dir, spare)
    modifies files
    ensures files.Valid() && files.open == old(files.open) + Descriptors(devices)
    ensures FoundOf(devices) == Companions(dir, roots, gone, spare)
  {
    devices := [];
    ghost var before := files.open;
    for i := 0 to |spare|
      invariant files.Valid() && files.open == before + Descriptors(devices)
      invariant FoundOf(devices) == Companions(dir, roots, gone, spare[..i])
    {
      assert spare[..i + 1][..i] == spare[..i];
      if IsCompanion(dir.nodes[spare[i].target], roots) && spare[i].target !in gone {
        var fd := files.Open();
        OneMoreOpen(devices, Device(spare[i], fd));
        devices := devices + [Device(spare[i], fd)];
      }
    }
    assert spare[..|spare|] == spare;
  }

  /** The devices that are new, open, and no other descriptor besides those there were:
      every other node it looked at is closed again. */
  method Discover(
      dir: Directory, extra: seq<Path>, listing: seq<Path>, known: seq<Held>, gone: set<Path>, files: Files)
    returns (devices: seq<Device>, present: seq<Path>)
    requires files.Valid()
    modifies files
    ensures FoundOf(devices) == Targets(dir, extra, extra + listing, known, gone)
    ensures files.open == old(files.open) + Descriptors(devices)
    ensures present == ScanAll(dir, Wanted(dir, extra), HeldByReal(dir, known), extra + listing).present
    ensures forall target :: target in HeldByReal(dir, known) ==>
      (HeldByReal(dir, known)[target].path in present <==> Listed(dir, extra + listing, target))
  {
    var wanted, held := Wanted(dir, extra), HeldByReal(dir, known);
    ScanStays(dir, wanted, held, extra + listing);
    var first, spare, there := FirstPass(dir, wanted, held, extra + listing, files);
    var second := SecondPass(dir, Roots(dir, held, FoundOf(first)), gone, spare, files);
    devices, present := first + second, there;
    Together(first, second);
    forall target | target in held ensures held[target].path in present <==> Listed(dir, extra + listing, target) {
      HeldIsPresent(dir, wanted, known, extra + listing, target);
    }
  }

  lemma Together(first: seq<Device>, second: seq<Device>)
    ensures FoundOf(first + second) == FoundOf(first) + FoundOf(second)
    ensures Descriptors(first + second) == Descriptors(first) + Descriptors(second)
  {
    var all := first + second;
    assert forall i :: 0 <= i < |first| ==> all[i] == first[i];
    assert forall i :: 0 <= i < |second| ==> all[|first| + i] == second[i];
    forall fd | fd in Descriptors(first) + Descriptors(second) ensures fd in Descriptors(all) {
      if i :| 0 <= i < |first| && first[i].fd == fd {
        assert all[i].fd == fd;
      } else {
        var j :| 0 <= j < |second| && second[j].fd == fd;
        assert all[|first| + j].fd == fd;
      }
    }
  }
}
