/** What taking a keyboard owes, and who remembers it: the machine's input devices,
    what each grab changed about them, and the debts reported down a pipe to the
    guardian that pays them if the program dies. */
module Ledger {
  import opened Wrappers
  import opened Keycodes

  // -- the machine -------------------------------------------------------------

  type Path = string
  type Id = nat

  /** Key repeat as the kernel keeps it; both zero is off. */
  datatype Repeat = Repeat(delay: nat, period: nat)

  const HUSHED: Repeat := Repeat(0, 0)

  /** One input device as long as it is plugged in.  `original` and `lights` are what
      its repeat and its LEDs are when the program has no business with it. */
  datatype Node = Node(
    repeat: Option<Repeat>, original: Option<Repeat>, leds: nat, lights: nat,
    elsewhere: bool,            // another program has the grab
    down: set<Keycode>)         // keys physically held

  /** Every device has a number of its own for good; a path may be used again. */
  datatype Kernel = Kernel(nodes: map<Id, Node>, at: map<Path, Id>, next: Id)

  ghost predicate Consistent(k: Kernel) {
    && (forall p :: p in k.at ==> k.at[p] in k.nodes)
    && (forall id :: id in k.nodes ==> id < k.next)
    && (forall id :: id in k.nodes ==> exists p :: p in k.at && k.at[p] == id)
    && (forall p, q :: p in k.at && q in k.at && k.at[p] == k.at[q] ==> p == q)
    && (forall id :: id in k.nodes ==> (k.nodes[id].repeat.Some? <==> k.nodes[id].original.Some?))
  }

  /** What the rest of the world may do between any two moments. */
  datatype Happening =
    | Plug(path: Path, node: Node)
    | Unplug(path: Path)
    | Claim(path: Path)                       // another program grabs it
    | Yield(path: Path)                       // and lets it go
    | Press(path: Path, down: set<Keycode>)
    | Adjust(path: Path, repeat: Repeat)      // kbdrate, on a keyboard of nobody's
    | Indicate(path: Path, leds: nat)         // the console's own locks, likewise

  // -- the program's side ------------------------------------------------------

  datatype Device = Device(
    path: Path, fd: Option<Id>, hasRepeat: bool,
    grabbed: bool, refused: bool, wasHeld: bool,
    savedLeds: Option<nat>, savedRepeat: Option<Repeat>)

  /** What is said to the guardian. */
  datatype Message = Owe(path: Path, repeat: Repeat) | Settle(path: Path)

  /** Everything outside the set of keyboards that handling them touches. */
  datatype Outside = Outside(kernel: Kernel, pipe: seq<Message>)

  /** An open descriptor still answers while its device is plugged in. */
  predicate Live(d: Device, k: Kernel) {
    d.fd.Some? && d.fd.value in k.nodes
  }

  function OpenDevice(path: Path, k: Kernel): Device
    requires path in k.at && k.at[path] in k.nodes
  {
    Device(path, Some(k.at[path]), k.nodes[k.at[path]].repeat.Some?, false, false, false, None, None)
  }

  /** A descriptor for a device that has one no longer, if its path leads anywhere. */
  function Reopened(d: Device, k: Kernel): (r: (Device, bool)) {
    if d.fd.Some? then (d, true)
    else if d.path in k.at then (d.(fd := Some(k.at[d.path])), true)
    else (d, false)
  }

  /** The kernel keeps one grab a device; a device that has gone refuses as well. */
  function Grabbed(d: Device, k: Kernel): (r: (Device, bool)) {
    if d.grabbed then (d, true)
    else if Live(d, k) && !k.nodes[d.fd.value].elsewhere then (d.(grabbed := true), true)
    else (d, false)
  }

  function RepeatOf(d: Device, k: Kernel): Option<Repeat> {
    if Live(d, k) && d.hasRepeat then k.nodes[d.fd.value].repeat else None
  }

  function WithRepeat(d: Device, k: Kernel, repeat: Repeat): Kernel {
    if Live(d, k) && d.hasRepeat && k.nodes[d.fd.value].repeat.Some?
    then k.(nodes := k.nodes[d.fd.value := k.nodes[d.fd.value].(repeat := Some(repeat))])
    else k
  }

  function LedsOf(d: Device, k: Kernel): nat {
    if Live(d, k) then k.nodes[d.fd.value].leds else 0
  }

  function WithLeds(d: Device, k: Kernel, leds: nat): Kernel {
    if Live(d, k) then k.(nodes := k.nodes[d.fd.value := k.nodes[d.fd.value].(leds := leds)]) else k
  }

  /** After a grab that came: LEDs and repeat saved, the repeat off, the debt reported. */
  function Taken(d: Device, o: Outside): (r: (Device, Outside)) {
    var held := d.(wasHeld := true,
                   savedLeds := if d.savedLeds.None? then Some(LedsOf(d, o.kernel)) else d.savedLeds);
    if d.savedRepeat.Some? || RepeatOf(d, o.kernel).None? then (held, o)
    else
      var was := RepeatOf(d, o.kernel).value;
      (held.(savedRepeat := Some(was)),
       Outside(WithRepeat(d, o.kernel, HUSHED), o.pipe + [Owe(d.path, was)]))
  }

  /** Taking undone, then closed. */
  function Released(d: Device, o: Outside): (r: (Device, Outside)) {
    var k := if d.savedLeds.Some? then WithLeds(d, o.kernel, d.savedLeds.value) else o.kernel;
    var after := d.(savedLeds := None, savedRepeat := None, fd := None, grabbed := false);
    if d.savedRepeat.None? then (after, o.(kernel := k))
    else (after, Outside(WithRepeat(d, k, d.savedRepeat.value), o.pipe + [Settle(d.path)]))
  }

  // -- the set of keyboards ----------------------------------------------------

  datatype Keyboards = Keyboards(devices: seq<Device>, outside: Outside)

  /** One keyboard of grab_all: taken, or let go of and remembered as refused. */
  function GrabOne(d: Device, o: Outside): (r: (Device, Outside)) {
    var (grabbed, came) := Grabbed(d, o.kernel);
    if came then Taken(grabbed.(refused := false), o)
    else
      var (released, after) := Released(d, o);
      (released.(refused := true), after)
  }

  function GrabAll(ks: Keyboards): Keyboards
    decreases |ks.devices|
  {
    if ks.devices == [] then ks
    else
      var n := |ks.devices| - 1;
      var front := GrabAll(ks.(devices := ks.devices[..n]));
      var (d, o) := GrabOne(ks.devices[n], front.outside);
      Keyboards(front.devices + [d], o)
  }

  /** Whether a keyboard that was ours is now somebody else's. */
  function Lost(ks: Keyboards): bool
    decreases |ks.devices|
  {
    if ks.devices == [] then false
    else
      var n := |ks.devices| - 1;
      var front := ks.(devices := ks.devices[..n]);
      Lost(front) || (!Grabbed(ks.devices[n], GrabAll(front).outside.kernel).1 && ks.devices[n].wasHeld)
  }

  /** Which keyboards stay when others are forgotten. */
  datatype Criterion = Grabs | OtherThan(path: Path) | Among(paths: set<Path>)

  predicate Meets(d: Device, which: Criterion) {
    match which
    case Grabs => d.grabbed
    case OtherThan(path) => d.path != path
    case Among(paths) => d.path in paths
  }

  /** Keep some of the keyboards; the others are forgotten, released on the way. */
  function Keep(ks: Keyboards, which: Criterion): Keyboards
    decreases |ks.devices|
  {
    if ks.devices == [] then ks
    else
      var n := |ks.devices| - 1;
      var front := Keep(ks.(devices := ks.devices[..n]), which);
      if Meets(ks.devices[n], which) then front.(devices := front.devices + [ks.devices[n]])
      else front.(outside := Released(ks.devices[n], front.outside).1)
  }

  /** Only what is held stays in the set. */
  function DiscardRefusals(ks: Keyboards): Keyboards { Keep(ks, Grabs) }

  function Forget(ks: Keyboards, path: Path): Keyboards { Keep(ks, OtherThan(path)) }

  function ReleaseAll(ks: Keyboards): Keyboards
    decreases |ks.devices|
  {
    if ks.devices == [] then ks
    else
      var n := |ks.devices| - 1;
      var front := ReleaseAll(ks.(devices := ks.devices[..n]));
      var (d, o) := Released(ks.devices[n], front.outside);
      Keyboards(front.devices + [d], o)
  }

  /** Take the descriptors back, forgetting the keyboards that have gone. */
  function Reopen(ks: Keyboards): Keyboards
    decreases |ks.devices|
  {
    if ks.devices == [] then ks
    else
      var n := |ks.devices| - 1;
      var front := Reopen(ks.(devices := ks.devices[..n]));
      var (d, there) := Reopened(ks.devices[n], front.outside.kernel);
      if there then front.(devices := front.devices + [d])
      else front.(outside := Released(d, front.outside).1)
  }

  /** Whose lock lights the keyboards we hold are to show. */
  datatype Lighting = OfPhone(mask: nat) | OfConsole

  /** Only one we hold is lit: any other is the console's already. */
  function LitOne(d: Device, k: Kernel, how: Lighting): Kernel {
    match how
    case OfPhone(mask) => if d.grabbed then WithLeds(d, k, mask) else k
    case OfConsole => if d.savedLeds.Some? then WithLeds(d, k, d.savedLeds.value) else k
  }

  function Lit(ks: Keyboards, how: Lighting): Keyboards
    decreases |ks.devices|
  {
    if ks.devices == [] then ks
    else
      var n := |ks.devices| - 1;
      var d, o := ks.devices[n], Lit(ks.(devices := ks.devices[..n]), how).outside;
      ks.(outside := o.(kernel := LitOne(d, o.kernel, how)))
  }

  predicate HasPath(devices: seq<Device>, path: Path) {
    exists i :: 0 <= i < |devices| && devices[i].path == path
  }

  /** Open the keyboards of a listing that are there and not in the set. */
  function Discovered(ks: Keyboards, listing: seq<Path>, asleep: bool): Keyboards
    decreases |listing|
  {
    if listing == [] then ks
    else
      var n := |listing| - 1;
      var front := Discovered(ks, listing[..n], asleep);
      var k := ks.outside.kernel;
      var path := listing[n];
      if path in k.at && k.at[path] in k.nodes && !HasPath(front.devices, path) then
        var d := OpenDevice(path, k);
        front.(devices := front.devices + [if asleep then d.(fd := None) else d])
      else front
  }

  /** What a look at the directory comes back with: the new keyboards by path,
      and every path that was there. */
  datatype Listing = Listing(found: seq<Path>, present: set<Path>)

  /** Rescan: what has come is added, what is not listed is forgotten. */
  function Rescanned(ks: Keyboards, listing: Listing, asleep: bool): Keyboards {
    Keep(Discovered(ks, listing.found, asleep), Among(listing.present))
  }

  /** Whether any keyboard is forgotten that way. */
  predicate Drops(ks: Keyboards, listing: Listing, asleep: bool) {
    exists i :: 0 <= i < |Discovered(ks, listing.found, asleep).devices| &&
      Discovered(ks, listing.found, asleep).devices[i].path !in listing.present
  }

  // -- the ledger --------------------------------------------------------------

  /** What the guardian would put back, having read all of this. */
  function Owed(pipe: seq<Message>): map<Path, Repeat> {
    if pipe == [] then map[]
    else
      var front := Owed(pipe[..|pipe| - 1]);
      match pipe[|pipe| - 1]
      case Owe(path, repeat) => front[path := repeat]
      case Settle(path) => front - {path}
  }

  lemma OwedSnoc(pipe: seq<Message>, message: Message)
    ensures message.Owe? ==> Owed(pipe + [message]) == Owed(pipe)[message.path := message.repeat]
    ensures message.Settle? ==> Owed(pipe + [message]) == Owed(pipe) - {message.path}
  {
    assert (pipe + [message])[..|pipe|] == pipe;
  }
}
