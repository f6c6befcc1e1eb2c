/** From what was measured to how each character is typed. */
module LayoutTable {
  import opened Wrappers
  import opened Keycodes
  import opened Probe
  import opened Capture

  datatype Way = Way(steps: seq<Step>, notes: seq<Note>)

  type Table = map<char, Way>

  /** How many modifier keys are held. */
  function Ones(mods: Modifiers): nat {
    (if mods & 0x01 != 0 then 1 else 0) + (if mods & 0x02 != 0 then 1 else 0)
    + (if mods & 0x04 != 0 then 1 else 0) + (if mods & 0x08 != 0 then 1 else 0)
    + (if mods & 0x10 != 0 then 1 else 0) + (if mods & 0x20 != 0 then 1 else 0)
    + (if mods & 0x40 != 0 then 1 else 0) + (if mods & 0x80 != 0 then 1 else 0)
  }

  function ModifiersHeld(steps: seq<Step>): nat {
    if steps == [] then 0 else Ones(steps[0].mods) + ModifiersHeld(steps[1..])
  }

  /** By the number of keystrokes, and among equals by the modifiers held. */
  predicate Cheaper(a: seq<Step>, b: seq<Step>) {
    |a| < |b| || (|a| == |b| && ModifiersHeld(a) < ModifiersHeld(b))
  }

  // -- what is cheap, read off the keys ----------------------------------------

  /** The modifier keys among these. */
  ghost function HeldWith(mods: Modifiers): set<Keycode> { set m | m in MODIFIERS && mods & MODIFIERS[m] != 0 }

  /** All the modifier keys pressed to type this. */
  ghost function HeldInAll(steps: seq<Step>): nat {
    if steps == [] then 0 else |HeldWith(steps[0].mods)| + HeldInAll(steps[1..])
  }

  /** No more keystrokes, and with as many no more modifier keys. */
  ghost predicate NoDearer(a: seq<Step>, b: seq<Step>) {
    |a| < |b| || (|a| == |b| && HeldInAll(a) <= HeldInAll(b))
  }

  function OneIf(b: bool): nat { if b then 1 else 0 }

  lemma OneFewer(held: set<Keycode>, m: Keycode)
    ensures |held| == |held - {m}| + OneIf(m in held)
  {
    if m in held {
      assert held == (held - {m}) + {m};
    } else {
      assert held == held - {m};
    }
  }

  lemma TwoFewer(held: set<Keycode>, m: Keycode, n: Keycode)
    requires m != n
    ensures |held| == |held - {m, n}| + OneIf(m in held) + OneIf(n in held)
  {
    OneFewer(held, m);
    OneFewer(held - {m}, n);
    assert held - {m} - {n} == held - {m, n};
  }

  lemma FourFewer(held: set<Keycode>, a: Keycode, b: Keycode, c: Keycode, d: Keycode)
    requires a != b && c != d && {a, b} !! {c, d}
    ensures |held| == |held - {a, b, c, d}| + OneIf(a in held) + OneIf(b in held) + OneIf(c in held) + OneIf(d in held)
  {
    TwoFewer(held, a, b);
    TwoFewer(held - {a, b}, c, d);
    assert held - {a, b} - {c, d} == held - {a, b, c, d};
    assert c !in {a, b} && d !in {a, b};
  }

  lemma EightAtMost(held: set<Keycode>, a: Keycode, b: Keycode, c: Keycode, d: Keycode,
                    e: Keycode, f: Keycode, g: Keycode, h: Keycode)
    requires a != b && c != d && {a, b} !! {c, d} && e != f && g != h && {e, f} !! {g, h}
    requires {a, b, c, d} !! {e, f, g, h}
    requires held <= {a, b, c, d} + {e, f, g, h}
    ensures |held| == OneIf(a in held) + OneIf(b in held) + OneIf(c in held) + OneIf(d in held)
                      + OneIf(e in held) + OneIf(f in held) + OneIf(g in held) + OneIf(h in held)
  {
    var left, right := {a, b, c, d}, {e, f, g, h};
    FourFewer(held, a, b, c, d);
    FourFewer(held - left, e, f, g, h);
    assert held - left - right == {};
    assert forall m :: m in right ==> m !in left;
    assert e in right && f in right && g in right && h in right;
  }

  lemma OnesAreHeld(mods: Modifiers)
    ensures Ones(mods) == |HeldWith(mods)|
  {
    EightAtMost(HeldWith(mods), 29, 42, 56, 125, 97, 54, 100, 126);
  }

  lemma {:induction false} ModifiersAreHeld(steps: seq<Step>)
    ensures ModifiersHeld(steps) == HeldInAll(steps)
  {
    if steps != [] {
      OnesAreHeld(steps[0].mods);
      ModifiersAreHeld(steps[1..]);
    }
  }

  lemma CheaperIsLess(a: seq<Step>, b: seq<Step>)
    ensures Cheaper(a, b) <==> !NoDearer(b, a)
  {
    ModifiersAreHeld(a);
    ModifiersAreHeld(b);
  }

  predicate IsBlank(c: char) { c == ' ' || c == '\t' || c == '\n' }

  /** A finding that is a way to type its character: a dead key alone is not one,
      and the blanks have keys of their own. */
  predicate Usual(f: Finding) {
    DeadKey !in f.notes && !IsBlank(f.c)
  }

  const BLANKS: seq<char> := [' ', '\t', '\n']

  /** A finding that is a way to this character, which is no blank: a dead key alone is
      none. */
  predicate IsWayTo(f: Finding, c: char) { DeadKey !in f.notes && f.c == c && c !in BLANKS }

  function TableOf(findings: seq<Finding>): Table {
    if findings == [] then map[]
    else
      var table := TableOf(findings[..|findings| - 1]);
      var f := findings[|findings| - 1];
      if Usual(f) && (f.c in table ==> Cheaper(f.steps, table[f.c].steps))
      then table[f.c := Way(f.steps, f.notes)]
      else table
  }

  method ToLayout(findings: seq<Finding>) returns (layout: Table)
    ensures layout == TableOf(findings)
  {
    layout := map[];
    for i := 0 to |findings|
      invariant layout == TableOf(findings[..i])
    {
      var f := findings[i];
      assert findings[..i + 1][..i] == findings[..i];
      if DeadKey in f.notes {
        continue;
      }
      if IsBlank(f.c) {
        continue;
      }
      if f.c !in layout || Cheaper(f.steps, layout[f.c].steps) {
        layout := layout[f.c := Way(f.steps, f.notes)];
      }
    }
    assert findings[..|findings|] == findings;
  }

  /** The first of the cheapest ways to type `c`. */
  ghost predicate BestAt(findings: seq<Finding>, c: char, i: nat) {
    && i < |findings| && IsWayTo(findings[i], c)
    && forall j :: 0 <= j < |findings| && IsWayTo(findings[j], c) ==>
         && NoDearer(findings[i].steps, findings[j].steps)
         && (j < i ==> !NoDearer(findings[j].steps, findings[i].steps))
  }

  lemma BestKept(findings: seq<Finding>, f: Finding, c: char, i: nat)
    requires BestAt(findings, c, i)
    requires IsWayTo(f, c) ==> NoDearer(findings[i].steps, f.steps)
    ensures BestAt(findings + [f], c, i)
  {}

  lemma BestReplaced(findings: seq<Finding>, f: Finding, c: char, i: nat)
    requires BestAt(findings, c, i)
    requires IsWayTo(f, c) && !NoDearer(findings[i].steps, f.steps)
    ensures BestAt(findings + [f], c, |findings|)
  {
    var all := findings + [f];
    forall j | 0 <= j < |findings| && IsWayTo(all[j], c)
      ensures NoDearer(f.steps, all[j].steps) && !NoDearer(all[j].steps, f.steps)
    {
      assert all[j] == findings[j];
    }
  }

  /** A character is in the table exactly when some single key or composition types
      it, and what is kept is the first of the cheapest ways. */
  lemma {:induction false} TableIsCheapest(findings: seq<Finding>, c: char)
    ensures c in TableOf(findings) <==> exists i :: 0 <= i < |findings| && IsWayTo(findings[i], c)
    ensures c in TableOf(findings) ==>
      exists i: nat :: BestAt(findings, c, i) && TableOf(findings)[c] == Way(findings[i].steps, findings[i].notes)
  {
    if findings != [] {
      var n := |findings| - 1;
      var front, f := findings[..n], findings[n];
      assert findings == front + [f];
      TableIsCheapest(front, c);
      if c in TableOf(front) {
        var i: nat :| BestAt(front, c, i) && TableOf(front)[c] == Way(front[i].steps, front[i].notes);
        CheaperIsLess(f.steps, front[i].steps);
        if IsWayTo(f, c) && Cheaper(f.steps, front[i].steps) {
          BestReplaced(front, f, c, i);
        } else {
          BestKept(front, f, c, i);
        }
      } else if IsWayTo(f, c) {
        assert BestAt(findings, c, n) by {
          assert forall j :: 0 <= j < n ==> findings[j] == front[j];
        }
      } else {
        assert forall j :: 0 <= j < n ==> findings[j] == front[j];
      }
    }
  }

  // -- straight quotes ---------------------------------------------------------

  /** The first of the cheapest keys for one of these characters. */
  function CheapestOf(table: Table, chars: seq<char>): (r: Option<char>)
    ensures r.Some? ==> r.value in table && r.value in chars
  {
    if chars == [] then None
    else
      var front := CheapestOf(table, chars[..|chars| - 1]);
      var last := chars[|chars| - 1];
      if last !in table then front
      else if front.Some? && !Cheaper(table[last].steps, table[front.value].steps) then front
      else Some(last)
  }

  /** The first of these characters that nothing in the table types more cheaply. */
  ghost predicate CheapestAt(table: Table, chars: seq<char>, i: nat) {
    && i < |chars| && chars[i] in table
    && forall j :: 0 <= j < |chars| && chars[j] in table ==>
         && NoDearer(table[chars[i]].steps, table[chars[j]].steps)
         && (j < i ==> !NoDearer(table[chars[j]].steps, table[chars[i]].steps))
  }

  lemma CheapestKept(table: Table, chars: seq<char>, last: char, i: nat)
    requires CheapestAt(table, chars, i)
    requires last in table ==> NoDearer(table[chars[i]].steps, table[last].steps)
    ensures CheapestAt(table, chars + [last], i)
  {}

  lemma CheapestReplaced(table: Table, chars: seq<char>, last: char, i: nat)
    requires CheapestAt(table, chars, i) && last in table
    requires !NoDearer(table[chars[i]].steps, table[last].steps)
    ensures CheapestAt(table, chars + [last], |chars|)
  {
    var all := chars + [last];
    forall j | 0 <= j < |chars| && all[j] in table
      ensures NoDearer(table[last].steps, table[all[j]].steps) && !NoDearer(table[all[j]].steps, table[last].steps)
    {
      assert all[j] == chars[j];
    }
  }

  lemma {:induction false} CheapestIsCheapest(table: Table, chars: seq<char>)
    ensures CheapestOf(table, chars).Some? <==> exists i :: 0 <= i < |chars| && chars[i] in table
    ensures CheapestOf(table, chars).Some? ==>
      exists i: nat :: CheapestAt(table, chars, i) && CheapestOf(table, chars) == Some(chars[i])
  {
    if chars != [] {
      var n := |chars| - 1;
      var front, last := chars[..n], chars[n];
      assert chars == front + [last];
      CheapestIsCheapest(table, front);
      if CheapestOf(table, front).Some? {
        var i: nat :| CheapestAt(table, front, i) && CheapestOf(table, front) == Some(front[i]);
        if last in table {
          CheaperIsLess(table[last].steps, table[front[i]].steps);
        }
        if last in table && Cheaper(table[last].steps, table[front[i]].steps) {
          CheapestReplaced(table, front, last, i);
        } else {
          CheapestKept(table, front, last, i);
        }
      } else if last in table {
        assert forall j :: 0 <= j < n ==> chars[j] == front[j];
        assert CheapestAt(table, chars, n);
      }
    }
  }

  /** A straight quote that nothing types is typed as a curly one of its family. */
  function Aliased(table: Table, straight: char, curlies: seq<char>): Table {
    if straight in table then table
    else
      match CheapestOf(table, curlies)
      case None => table
      case Some(c) => table[straight := Way(table[c].steps, table[c].notes + [ArrivesAs(c)])]
  }

  function WithQuoteAliases(table: Table): Table {
    Aliased(Aliased(table, '\'', ['\U{2019}', '\U{2018}']), '"', ['\U{201C}', '\U{201D}'])
  }

  /** The straight quotes added in place, one family after the other. */
  method AddQuoteAliases(table: Table) returns (layout: Table)
    ensures layout == WithQuoteAliases(table)
  {
    var families: seq<(char, seq<char>)> := [('\'', ['\U{2019}', '\U{2018}']), ('"', ['\U{201C}', '\U{201D}'])];
    layout := table;
    for i := 0 to |families|
      invariant i == 0 ==> layout == table
      invariant i == 1 ==> layout == Aliased(table, '\'', ['\U{2019}', '\U{2018}'])
      invariant i == 2 ==> layout == WithQuoteAliases(table)
    {
      var (straight, curlies) := families[i];
      if straight in layout {
        continue;
      }
      var c := Cheapest(layout, curlies);
      if c.Some? {
        layout := layout[straight := Way(layout[c.value].steps, layout[c.value].notes + [ArrivesAs(c.value)])];
      }
    }
  }

  method Cheapest(table: Table, chars: seq<char>) returns (best: Option<char>)
    ensures best == CheapestOf(table, chars)
  {
    best := None;
    for i := 0 to |chars|
      invariant best == CheapestOf(table, chars[..i])
    {
      assert chars[..i + 1][..i] == chars[..i];
      if chars[i] in table && (best.None? || Cheaper(table[chars[i]].steps, table[best.value].steps)) {
        best := Some(chars[i]);
      }
    }
    assert chars[..|chars|] == chars;
  }

  /** Only straight quotes that nothing typed are added; the rest is untouched. */
  lemma AliasesAddOnly(table: Table)
    ensures table.Keys <= WithQuoteAliases(table).Keys <= table.Keys + {'\'', '"'}
    ensures forall c :: c in table ==> WithQuoteAliases(table)[c] == table[c]
    ensures '\'' in WithQuoteAliases(table)
       <==> '\'' in table || '\U{2019}' in table || '\U{2018}' in table
    ensures '"' in WithQuoteAliases(table)
       <==> '"' in table || '\U{201C}' in table || '\U{201D}' in table
  {
    var singles, doubles := ['\U{2019}', '\U{2018}'], ['\U{201C}', '\U{201D}'];
    var once := Aliased(table, '\'', singles);
    CheapestOfTwo(table, '\U{2019}', '\U{2018}');
    CheapestOfTwo(once, '\U{201C}', '\U{201D}');
  }

  /** A straight quote added is typed as the cheapest curly one of its family, the first
      of two that cost the same. */
  lemma AliasIsCheapest(table: Table, straight: char, curlies: seq<char>)
    requires straight !in table && straight in Aliased(table, straight, curlies)
    ensures exists i: nat :: (
      && CheapestAt(table, curlies, i)
      && Aliased(table, straight, curlies)[straight]
         == Way(table[curlies[i]].steps, table[curlies[i]].notes + [ArrivesAs(curlies[i])]))
  {
    CheapestIsCheapest(table, curlies);
  }

  lemma CheapestOfTwo(table: Table, a: char, b: char)
    ensures CheapestOf(table, [a, b]).Some? <==> a in table || b in table
  {
    assert [a, b][..1] == [a] && [a][..0] == [];
    assert CheapestOf(table, [a]) == if a in table then Some(a) else None;
  }
}
