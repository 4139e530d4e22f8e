/** Choosing a MIDI output port (`CompPlayer._get_available_ports`, the port
    choice of `CompPlayer.__init__` and the lookup of `change_port`). Ports
    are ranked by a weight found from their names, lower first, with ties
    kept in the order the MIDI library lists them; the best-ranked port is
    tried first and the virtual port is the fallback. Whether the library
    opens a port is a parameter. */
module Ports {
  import opened Builtins

  /** The name the player shows for its own virtual port. */
  const VIRTUAL: string := "<virtual>"

  /** A pattern of PORT_WEIGHTS, as `re.match` applies it to a port name. */
  datatype NamePattern =
    | Prefix(text: string)     // "^text": the name starts with text
    | InFirstLine(text: string) // ".*text": text starts before the first line break

  /** `re.match(".*" + text, name)`: `.` matches any character but a line
      break, so text must start within the first line. */
  predicate OnFirstLine(name: string, text: string)
    decreases |name|
  {
    StartsWith(name, text) || (name != [] && name[0] != '\n' && OnFirstLine(name[1..], text))
  }

  /** text starts at position k of name, with no line break before k. */
  predicate FoundAt(name: string, text: string, k: int) {
    0 <= k <= |name| && '\n' !in name[..k] && StartsWith(name[k..], text)
  }

  /** OnFirstLine finds text at some position with no line break before it,
      and only there. */
  lemma {:induction false} OnFirstLineAt(name: string, text: string)
    ensures OnFirstLine(name, text) <==> exists k :: FoundAt(name, text, k)
    decreases |name|
  {
    if StartsWith(name, text) {
      assert FoundAt(name, text, 0) by {
        assert name[..0] == [] && name[0..] == name;
      }
    } else if name != [] {
      OnFirstLineAt(name[1..], text);
      if OnFirstLine(name, text) {
        var k :| FoundAt(name[1..], text, k);
        FoundLater(name, text, k);
      }
      if exists k :: FoundAt(name, text, k) {
        var k :| FoundAt(name, text, k);
        FoundEarlier(name, text, k);
      }
    }
  }

  /** A find in the tail of a name that does not open with a line break is
      one position later in the name. */
  lemma {:induction false} FoundLater(name: string, text: string, k: int)
    requires name != [] && name[0] != '\n' && FoundAt(name[1..], text, k)
    ensures FoundAt(name, text, k + 1)
  {
    assert name[..k + 1] == [name[0]] + name[1..][..k];
    assert name[k + 1..] == name[1..][k..];
  }

  /** A find past the head of a name that does not start with text is one
      position earlier in its tail, and the head is not a line break. */
  lemma {:induction false} FoundEarlier(name: string, text: string, k: int)
    requires name != [] && !StartsWith(name, text) && FoundAt(name, text, k)
    ensures name[0] != '\n' && FoundAt(name[1..], text, k - 1)
  {
    assert k != 0 by {
      assert name[0..] == name;
    }
    assert name[0] in name[..k];
    assert name[..k] == [name[0]] + name[1..][..k - 1];
    assert name[k..] == name[1..][k - 1..];
  }

  predicate Matches(pattern: NamePattern, name: string) {
    match pattern
    case Prefix(text) => StartsWith(name, text)
    case InFirstLine(text) => OnFirstLine(name, text)
  }

  const MIDI_THROUGH: string := "Midi Through"
  const QJACKCTL: string := ":qjackctl"

  /** PORT_WEIGHTS: the kernel's loop-back port and the ports of the JACK
      control panel come after every other port. */
  const PORT_WEIGHTS: seq<(NamePattern, int)> := [(Prefix(MIDI_THROUGH), 10), (InFirstLine(QJACKCTL), 20)]

  /** The weight of the first rule whose pattern matches, 0 if none does. */
  function FirstWeight(name: string, rules: seq<(NamePattern, int)>): int {
    if rules == [] then 0
    else if Matches(rules[0].0, name) then rules[0].1
    else FirstWeight(name, rules[1..])
  }

  /** `_port_pref` of a port named `name`. */
  function PortWeight(name: string): int {
    FirstWeight(name, PORT_WEIGHTS)
  }

  /** The weight of a port, stated without the rule table: 10 for a name
      starting "Midi Through", otherwise 20 for a name with ":qjackctl" on
      its first line, and 0 for every other name. */
  lemma {:induction false} PortWeights(name: string)
    ensures StartsWith(name, MIDI_THROUGH) ==> PortWeight(name) == 10
    ensures !StartsWith(name, MIDI_THROUGH) ==>
              (PortWeight(name) == 20 <==>
               exists k :: FoundAt(name, QJACKCTL, k))
    ensures PortWeight(name) == 0 || PortWeight(name) == 10 || PortWeight(name) == 20
    ensures PortWeight(name) == 0 <==>
              !StartsWith(name, MIDI_THROUGH) &&
              !exists k :: FoundAt(name, QJACKCTL, k)
  {
    var rules := PORT_WEIGHTS;
    assert rules[0] == (Prefix(MIDI_THROUGH), 10);
    assert rules[1..][0] == (InFirstLine(QJACKCTL), 20) && rules[1..][1..] == [];
    assert FirstWeight(name, rules[1..]) == if OnFirstLine(name, QJACKCTL) then 20 else 0;
    OnFirstLineAt(name, QJACKCTL);
  }

  /** An entry of `enumerate(ports)`: the port's number and its name. */
  datatype Port = Port(num: int, name: string)

  function Weight(p: Port): int {
    PortWeight(p.name)
  }

  /** `list(enumerate(names))`. */
  function Enumerate(names: seq<string>): (ports: seq<Port>)
    ensures |ports| == |names|
    ensures forall i :: 0 <= i < |names| ==> ports[i] == Port(i, names[i])
  {
    seq(|names|, i requires 0 <= i < |names| => Port(i, names[i]))
  }

  /** The names of a list of ports, in order. */
  function Names(ports: seq<Port>): (names: seq<string>)
    ensures |names| == |ports|
    ensures forall i :: 0 <= i < |ports| ==> names[i] == ports[i].name
  {
    if ports == [] then [] else [ports[0].name] + Names(ports[1..])
  }

  lemma {:induction false} NamesConcat(p: seq<Port>, q: seq<Port>)
    ensures Names(p + q) == Names(p) + Names(q)
    decreases |p|
  {
    if p != [] {
      assert (p + q)[1..] == p[1..] + q;
      NamesConcat(p[1..], q);
    }
  }

  /** Weights never decrease along the list. */
  predicate ByWeight(s: seq<Port>) {
    forall i, j :: 0 <= i < j < |s| ==> Weight(s[i]) <= Weight(s[j])
  }

  /** The ports of weight w, in their order in s. */
  function OfWeight(s: seq<Port>, w: int): seq<Port>
    decreases |s|
  {
    if s == [] then []
    else OfWeight(s[..|s| - 1], w) + (if Weight(s[|s| - 1]) == w then [s[|s| - 1]] else [])
  }

  lemma {:induction false} OfWeightSnoc(s: seq<Port>, x: Port, w: int)
    ensures OfWeight(s + [x], w) == OfWeight(s, w) + (if Weight(x) == w then [x] else [])
  {
    assert (s + [x])[..|s|] == s;
  }

  /** x placed after every port of the ranked list s whose weight is at
      most x's, and before the heavier ones. */
  function InsertAfter(x: Port, s: seq<Port>): (r: seq<Port>)
    requires ByWeight(s)
    ensures ByWeight(r)
    ensures multiset(r) == multiset(s) + multiset{x}
    ensures forall w :: OfWeight(r, w) == OfWeight(s, w) + (if Weight(x) == w then [x] else [])
    decreases |s|
  {
    if s == [] || Weight(s[|s| - 1]) <= Weight(x) then
      forall w {
        OfWeightSnoc(s, x, w);
      }
      s + [x]
    else
      var init, last := s[..|s| - 1], s[|s| - 1];
      assert s == init + [last];
      var rest := InsertAfter(x, init);
      HeavierLast(x, s, rest);
      rest + [last]
  }

  lemma {:induction false} HeavierLast(x: Port, s: seq<Port>, rest: seq<Port>)
    requires ByWeight(s) && s != [] && Weight(x) < Weight(s[|s| - 1])
    requires ByWeight(rest) && multiset(rest) == multiset(s[..|s| - 1]) + multiset{x}
    requires forall w :: OfWeight(rest, w) == OfWeight(s[..|s| - 1], w) + (if Weight(x) == w then [x] else [])
    ensures ByWeight(rest + [s[|s| - 1]])
    ensures multiset(rest + [s[|s| - 1]]) == multiset(s) + multiset{x}
    ensures forall w :: OfWeight(rest + [s[|s| - 1]], w) == OfWeight(s, w) + (if Weight(x) == w then [x] else [])
  {
    var init, last := s[..|s| - 1], s[|s| - 1];
    assert s == init + [last];
    HeavierBound(x, s, rest);
    forall w
      ensures OfWeight(rest + [last], w) == OfWeight(s, w) + (if Weight(x) == w then [x] else [])
    {
      HeavierStable(x, init, last, rest, w);
    }
  }

  lemma {:induction false} HeavierStable(x: Port, init: seq<Port>, last: Port, rest: seq<Port>, w: int)
    requires Weight(x) < Weight(last)
    requires OfWeight(rest, w) == OfWeight(init, w) + (if Weight(x) == w then [x] else [])
    ensures OfWeight(rest + [last], w) == OfWeight(init + [last], w) + (if Weight(x) == w then [x] else [])
  {
    OfWeightSnoc(rest, last, w);
    OfWeightSnoc(init, last, w);
  }

  lemma {:induction false} HeavierBound(x: Port, s: seq<Port>, rest: seq<Port>)
    requires ByWeight(s) && s != [] && Weight(x) < Weight(s[|s| - 1])
    requires ByWeight(rest) && multiset(rest) == multiset(s[..|s| - 1]) + multiset{x}
    ensures ByWeight(rest + [s[|s| - 1]])
  {
    var init, last := s[..|s| - 1], s[|s| - 1];
    forall i | 0 <= i < |rest|
      ensures Weight(rest[i]) <= Weight(last)
    {
      assert rest[i] in multiset(rest);
      if rest[i] != x {
        assert rest[i] in multiset(init);
        var k :| 0 <= k < |init| && init[k] == rest[i];
        assert s[k] == rest[i];
      }
    }
    forall i, j | 0 <= i < j < |rest + [last]|
      ensures Weight((rest + [last])[i]) <= Weight((rest + [last])[j])
    {
      if j == |rest| {
        assert (rest + [last])[i] == rest[i];
      } else {
        assert (rest + [last])[i] == rest[i] && (rest + [last])[j] == rest[j];
      }
    }
  }

  /** Python's `sorted(ports, key=_port_pref)`: ranked by weight, and stable,
      so ports of one weight keep their relative order. */
  function SortByWeight(s: seq<Port>): (r: seq<Port>)
    ensures ByWeight(r)
    ensures multiset(r) == multiset(s)
    ensures forall w :: OfWeight(r, w) == OfWeight(s, w)
    decreases |s|
  {
    if s == [] then []
    else
      assert s == s[..|s| - 1] + [s[|s| - 1]];
      InsertAfter(s[|s| - 1], SortByWeight(s[..|s| - 1]))
  }

  lemma {:induction false} OfWeightMembers(s: seq<Port>, w: int, x: Port)
    requires x in OfWeight(s, w)
    ensures x in s && Weight(x) == w
    decreases |s|
  {
    if s != [] {
      assert s == s[..|s| - 1] + [s[|s| - 1]];
      if x in OfWeight(s[..|s| - 1], w) {
        OfWeightMembers(s[..|s| - 1], w, x);
      }
    }
  }

  lemma {:induction false} HasLastWeight(s: seq<Port>)
    requires s != []
    ensures OfWeight(s, Weight(s[|s| - 1])) != []
  {
  }

  lemma {:induction false} CancelSuffix<T>(p: seq<T>, q: seq<T>, t: seq<T>)
    requires p + t == q + t
    ensures p == q
  {
    assert p == (p + t)[..|p|] && q == (q + t)[..|q|];
  }

  /** A ranked list that keeps every weight's ports in the order of s is
      the one SortByWeight gives: the stable sort is the only one. */
  lemma {:induction false} StableUnique(a: seq<Port>, b: seq<Port>)
    requires ByWeight(a) && ByWeight(b)
    requires forall w :: OfWeight(a, w) == OfWeight(b, w)
    ensures a == b
    decreases |a| + |b|
  {
    if a == [] && b == [] {
      return;
    }
    if a == [] || b == [] {
      if a == [] {
        HasLastWeight(b);
      } else {
        HasLastWeight(a);
      }
      assert false;
    }
    var x, y := a[|a| - 1], b[|b| - 1];
    var wa, wb := Weight(x), Weight(y);
    assert a == a[..|a| - 1] + [x] && b == b[..|b| - 1] + [y];
    assert y in OfWeight(b, wb);
    OfWeightMembers(a, wb, y);
    assert x in OfWeight(a, wa);
    OfWeightMembers(b, wa, x);
    assert wa == wb by {
      var i :| 0 <= i < |a| && a[i] == y;
      var j :| 0 <= j < |b| && b[j] == x;
      assert wb <= wa && wa <= wb;
    }
    assert x == y by {
      var oa, ob := OfWeight(a, wa), OfWeight(b, wa);
      assert oa == OfWeight(a[..|a| - 1], wa) + [x];
      assert ob == OfWeight(b[..|b| - 1], wa) + [y];
      assert oa[|oa| - 1] == x && ob[|ob| - 1] == y;
    }
    var ia, ib := a[..|a| - 1], b[..|b| - 1];
    forall w
      ensures OfWeight(ia, w) == OfWeight(ib, w)
    {
      assert OfWeight(a, w) == OfWeight(ia, w) + (if wa == w then [x] else []);
      assert OfWeight(b, w) == OfWeight(ib, w) + (if wa == w then [x] else []);
      CancelSuffix(OfWeight(ia, w), OfWeight(ib, w), if wa == w then [x] else []);
    }
    StableUnique(ia, ib);
  }

  /** The ranked list of `_get_available_ports`. */
  function Ranked(names: seq<string>): (ports: seq<Port>)
    ensures |ports| == |names|
  {
    var r := SortByWeight(Enumerate(names));
    assert |r| == |multiset(r)| == |multiset(Enumerate(names))| == |names|;
    r
  }

  /** Each ranked entry is a listed port under its own number. */
  lemma {:induction false} RankedEntry(names: seq<string>, k: int)
    requires 0 <= k < |names|
    ensures 0 <= Ranked(names)[k].num < |names|
    ensures Ranked(names)[k] == Port(Ranked(names)[k].num, names[Ranked(names)[k].num])
  {
    var e := Enumerate(names);
    assert Ranked(names)[k] in multiset(Ranked(names));
    assert Ranked(names)[k] in multiset(e);
  }

  /** `available_ports`: the names in ranked order, then the virtual port. */
  function AvailablePorts(names: seq<string>): (list: seq<string>)
    ensures |list| == |names| + 1 && list[|names|] == VIRTUAL
  {
    Names(Ranked(names)) + [VIRTUAL]
  }

  /** The listed names are the given ones, rearranged, ranked by weight,
      each weight's names in the order given, followed by the virtual port. */
  lemma {:induction false} AvailablePortsShape(names: seq<string>)
    ensures multiset(AvailablePorts(names)[..|names|]) == multiset(names)
    ensures forall i, j :: 0 <= i < j < |names| ==>
              PortWeight(AvailablePorts(names)[i]) <= PortWeight(AvailablePorts(names)[j])
    ensures forall w :: Names(OfWeight(Ranked(names), w)) == Names(OfWeight(Enumerate(names), w))
  {
    var list := AvailablePorts(names);
    assert list[..|names|] == Names(Ranked(names));
    NamesPermutation(Ranked(names), Enumerate(names));
    assert Names(Enumerate(names)) == names;
  }

  lemma {:induction false} NamesPermutation(a: seq<Port>, b: seq<Port>)
    requires multiset(a) == multiset(b)
    ensures multiset(Names(a)) == multiset(Names(b))
    decreases |a|
  {
    if a == [] {
      assert |b| == |multiset(b)| == 0;
      return;
    }
    var x := a[0];
    assert x in multiset(b);
    var k :| 0 <= k < |b| && b[k] == x;
    var rest := b[..k] + b[k + 1..];
    assert b == b[..k] + [x] + b[k + 1..];
    assert a == [x] + a[1..];
    assert multiset(b) == multiset(b[..k]) + multiset{x} + multiset(b[k + 1..]);
    assert multiset(rest) == multiset(b[..k]) + multiset(b[k + 1..]);
    assert multiset(rest) == multiset(b) - multiset{x};
    assert multiset(a) == multiset{x} + multiset(a[1..]);
    assert multiset(a[1..]) == multiset(a) - multiset{x};
    NamesPermutation(a[1..], rest);
    NamesConcat(b[..k] + [x], b[k + 1..]);
    NamesConcat(b[..k], [x]);
    NamesConcat(b[..k], b[k + 1..]);
  }

  /** An output the player can send to: a listed port by number, or its own
      virtual port. */
  datatype Output = Hardware(num: int) | Virtual

  datatype Choice = Choice(output: Output, name: string)

  /** The port `__init__` opens: the best-ranked port if there is one and it
      opens, else the virtual port if it opens, else MIDINotAvailable. */
  function InitialPort(names: seq<string>, hwOpens: bool, virtOpens: bool): (r: Result<Choice>)
    ensures r.Err? <==> (names == [] || !hwOpens) && !virtOpens
    ensures r.Err? ==> r.error == MidiNotAvailable
    ensures r.Ok? && r.value.output.Virtual? <==> (names == [] || !hwOpens) && virtOpens
    ensures r.Ok? && r.value.output.Virtual? ==> r.value.name == VIRTUAL
  {
    var ranked := Ranked(names);
    if |ranked| > 0 && hwOpens then Ok(Choice(Hardware(ranked[0].num), ranked[0].name))
    else if virtOpens then Ok(Choice(Virtual, VIRTUAL))
    else Err(MidiNotAvailable)
  }

  /** The first index of s holding a port of weight w, given one at k. */
  lemma {:induction false} FirstOfWeight(s: seq<Port>, w: int, k: int) returns (i: int)
    requires 0 <= k < |s| && Weight(s[k]) == w
    ensures 0 <= i <= k && Weight(s[i]) == w
    ensures forall j :: 0 <= j < i ==> Weight(s[j]) != w
    decreases k
  {
    if j :| 0 <= j < k && Weight(s[j]) == w {
      i := FirstOfWeight(s, w, j);
    } else {
      i := k;
    }
  }

  /** The first port of weight w in s heads OfWeight(s, w). */
  lemma {:induction false} HeadOfWeight(s: seq<Port>, w: int, i: int)
    requires 0 <= i < |s| && Weight(s[i]) == w
    requires forall j :: 0 <= j < i ==> Weight(s[j]) != w
    ensures OfWeight(s, w) != [] && OfWeight(s, w)[0] == s[i]
    decreases |s|
  {
    var init := s[..|s| - 1];
    if i == |s| - 1 {
      NoneOfWeight(init, w);
    } else {
      HeadOfWeight(init, w, i);
    }
  }

  lemma {:induction false} NoneOfWeight(s: seq<Port>, w: int)
    requires forall j :: 0 <= j < |s| ==> Weight(s[j]) != w
    ensures OfWeight(s, w) == []
    decreases |s|
  {
    if s != [] {
      NoneOfWeight(s[..|s| - 1], w);
    }
  }

  /** When the best-ranked port opens, it is a listed port of least weight,
      and no port listed before it has that weight. */
  lemma {:induction false} InitialPortBest(names: seq<string>, hwOpens: bool, virtOpens: bool)
    requires names != [] && hwOpens
    ensures InitialPort(names, hwOpens, virtOpens).Ok?
    ensures var c := InitialPort(names, hwOpens, virtOpens).value;
            && c.output.Hardware? && 0 <= c.output.num < |names| && c.name == names[c.output.num]
            && (forall i :: 0 <= i < |names| ==> PortWeight(c.name) <= PortWeight(names[i]))
            && (forall i :: 0 <= i < c.output.num ==> PortWeight(c.name) < PortWeight(names[i]))
  {
    var e, r := Enumerate(names), Ranked(names);
    RankedEntry(names, 0);
    var k := r[0].num;
    var m := Weight(r[0]);
    forall i | 0 <= i < |names|
      ensures m <= PortWeight(names[i])
    {
      assert e[i] in multiset(r);
      var j :| 0 <= j < |r| && r[j] == e[i];
      assert j == 0 || Weight(r[0]) <= Weight(r[j]);
    }
    var first := FirstOfWeight(e, m, k);
    HeadOfWeight(e, m, first);
    HeadOfWeight(r, m, 0);
    assert e[first] == r[0];
  }

  /** The number the loop of change_port stops at: that of the first ranked
      port with the given name. */
  function Lookup(ports: seq<Port>, name: string): (r: Option<int>)
    ensures r.None? <==> forall i :: 0 <= i < |ports| ==> ports[i].name != name
    ensures r.Some? ==> exists i :: 0 <= i < |ports| && ports[i] == Port(r.value, name) &&
                                    forall j :: 0 <= j < i ==> ports[j].name != name
    decreases |ports|
  {
    if ports == [] then None
    else if ports[0].name == name then Some(ports[0].num)
    else
      var r := Lookup(ports[1..], name);
      LookupTail(ports, name, r);
      r
  }

  lemma {:induction false} LookupTail(ports: seq<Port>, name: string, r: Option<int>)
    requires ports != [] && ports[0].name != name
    requires r.None? <==> forall i :: 0 <= i < |ports[1..]| ==> ports[1..][i].name != name
    requires r.Some? ==> exists i :: 0 <= i < |ports[1..]| && ports[1..][i] == Port(r.value, name) &&
                                    forall j :: 0 <= j < i ==> ports[1..][j].name != name
    ensures r.None? <==> forall i :: 0 <= i < |ports| ==> ports[i].name != name
    ensures r.Some? ==> exists i :: 0 <= i < |ports| && ports[i] == Port(r.value, name) &&
                                    forall j :: 0 <= j < i ==> ports[j].name != name
  {
    if r.Some? {
      var i :| 0 <= i < |ports[1..]| && ports[1..][i] == Port(r.value, name) &&
               forall j :: 0 <= j < i ==> ports[1..][j].name != name;
      assert ports[i + 1] == Port(r.value, name);
      forall j | 0 <= j < i + 1
        ensures ports[j].name != name
      {
        if j > 0 {
          assert ports[j] == ports[1..][j - 1];
        }
      }
    }
    if r.None? {
      forall i | 0 < i < |ports|
        ensures ports[i].name != name
      {
        assert ports[i] == ports[1..][i - 1];
      }
    }
  }

  /** Looking a name up in the ranked list finds a port exactly when the
      name is listed, and the port it finds bears that name. */
  lemma {:induction false} LookupRanked(names: seq<string>, name: string)
    ensures Lookup(Ranked(names), name).Some? <==> name in names
    ensures Lookup(Ranked(names), name).Some? ==>
              var k := Lookup(Ranked(names), name).value; 0 <= k < |names| && names[k] == name
  {
    var e, r := Enumerate(names), Ranked(names);
    if name in names {
      var k :| 0 <= k < |names| && names[k] == name;
      assert e[k] in multiset(r);
    }
    if Lookup(r, name).Some? {
      var i :| 0 <= i < |r| && r[i] == Port(Lookup(r, name).value, name);
      RankedEntry(names, i);
    }
  }
}
