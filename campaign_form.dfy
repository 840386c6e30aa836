/**
 * The campaign form: the channel options de-duplicated by name, the field update on
 * input, and the body sent on submit. Form fields are a map from field name to value.
 */
module CampaignForm {
  import opened Wrappers
  import opened Models
  import opened Js

  /** The position of the first entry with this name. */
  function FindName(m: seq<Channel>, name: string): (r: Option<nat>)
    ensures r.Some? ==> r.value < |m| && m[r.value].name == name
    ensures r.Some? ==> forall j :: 0 <= j < r.value ==> m[j].name != name
    ensures r.None? ==> forall j :: 0 <= j < |m| ==> m[j].name != name
  {
    if m == [] then None
    else if m[0].name == name then Some(0)
    else match FindName(m[1..], name)
      case None => None
      case Some(i) => Some(i + 1)
  }

  /** The index of the last channel with this name. */
  function LastIndex(cs: seq<Channel>, name: string): (r: Option<nat>)
    ensures r.Some? ==> r.value < |cs| && cs[r.value].name == name
    ensures r.Some? ==> forall j :: r.value < j < |cs| ==> cs[j].name != name
    ensures r.None? ==> forall j :: 0 <= j < |cs| ==> cs[j].name != name
  {
    if cs == [] then None
    else if cs[|cs| - 1].name == name then Some(|cs| - 1)
    else LastIndex(cs[..|cs| - 1], name)
  }

  /** `map.set(channel.name, channel)` on a Map kept as its entries in insertion order. */
  function Put(m: seq<Channel>, c: Channel): (r: seq<Channel>)
  {
    match FindName(m, c.name)
    case Some(i) => m[i := c]
    case None => m + [c]
  }

  /**
   * `[...new Map(channels.map(c => [c.name, c])).values()]`: one entry per name, at the place
   * where the name first occurs, holding the last channel with that name.
   */
  function DedupByName(cs: seq<Channel>): (r: seq<Channel>)
    ensures forall i, j :: 0 <= i < j < |r| ==> r[i].name != r[j].name
    ensures forall n :: FindName(r, n).Some? <==> FindName(cs, n).Some?
    ensures forall i :: 0 <= i < |r| ==> LastIndex(cs, r[i].name).Some? && r[i] == cs[LastIndex(cs, r[i].name).value]
    ensures forall i, j :: 0 <= i < j < |r| ==> FirstBefore(cs, r[i].name, r[j].name)
  {
    if cs == [] then []
    else
      var prev := cs[..|cs| - 1];
      var c := cs[|cs| - 1];
      var m := DedupByName(prev);
      assert prev + [c] == cs;
      PutUnique(m, c);
      PutNames(prev, c, m);
      PutLast(prev, c, m);
      NamesKnown(m, prev, c);
      PutOrder(prev, c, m);
      assert FirstOccurrenceOrder(Put(m, c), cs);
      Put(m, c)
  }

  /** A name occurs in `prev + [c]` first where it occurs in `prev`, or at the end if only `c` has it. */
  lemma FindNameAppend(prev: seq<Channel>, c: Channel, n: string)
    ensures FindName(prev, n).Some? ==> FindName(prev + [c], n) == FindName(prev, n)
    ensures FindName(prev, n).None? && c.name == n ==> FindName(prev + [c], n) == Some(|prev|)
    ensures FindName(prev, n).None? && c.name != n ==> FindName(prev + [c], n).None?
  {
    var cs := prev + [c];
    if FindName(prev, n).Some? {
      var k := FindName(prev, n).value;
      assert cs[k] == prev[k];
      assert forall j :: 0 <= j < k ==> cs[j] == prev[j];
      FindNameIsFirst(cs, n, k);
    } else if c.name == n {
      assert forall j :: 0 <= j < |prev| ==> cs[j] == prev[j];
      FindNameIsFirst(cs, n, |prev|);
    } else {
      assert forall j :: 0 <= j < |cs| ==> cs[j].name != n by {
        assert forall j :: 0 <= j < |prev| ==> cs[j] == prev[j];
      }
      FindNameAbsent(cs, n);
    }
  }

  lemma FindNameIsFirst(m: seq<Channel>, n: string, k: nat)
    requires k < |m| && m[k].name == n && forall j :: 0 <= j < k ==> m[j].name != n
    ensures FindName(m, n) == Some(k)
  {
  }

  lemma FindNameAbsent(m: seq<Channel>, n: string)
    requires forall j :: 0 <= j < |m| ==> m[j].name != n
    ensures FindName(m, n).None?
  {
  }

  /** The names of an updated entry list are those of the old one. */
  lemma FindNameUpdate(m: seq<Channel>, i: nat, c: Channel, n: string)
    requires i < |m| && m[i].name == c.name
    ensures FindName(m[i := c], n) == FindName(m, n)
  {
    var r := m[i := c];
    assert forall j :: 0 <= j < |m| ==> r[j].name == m[j].name;
    if FindName(m, n).Some? {
      FindNameIsFirst(r, n, FindName(m, n).value);
    } else {
      FindNameAbsent(r, n);
    }
  }

  ghost predicate UniqueNames(m: seq<Channel>)
  {
    forall i, j :: 0 <= i < j < |m| ==> m[i].name != m[j].name
  }

  ghost predicate SameNames(m: seq<Channel>, cs: seq<Channel>)
  {
    forall n :: FindName(m, n).Some? <==> FindName(cs, n).Some?
  }

  ghost predicate HoldsLast(m: seq<Channel>, cs: seq<Channel>)
  {
    forall i :: 0 <= i < |m| ==> LastIndex(cs, m[i].name).Some? && m[i] == cs[LastIndex(cs, m[i].name).value]
  }

  /** Both names occur in `cs`, and `a` first occurs before `b` does. */
  predicate FirstBefore(cs: seq<Channel>, a: string, b: string)
  {
    FindName(cs, a).Some? && FindName(cs, b).Some? && FindName(cs, a).value < FindName(cs, b).value
  }

  ghost predicate FirstOccurrenceOrder(m: seq<Channel>, cs: seq<Channel>)
  {
    forall i, j :: 0 <= i < j < |m| ==> FirstBefore(cs, m[i].name, m[j].name)
  }

  lemma PutUnique(m: seq<Channel>, c: Channel)
    requires UniqueNames(m)
    ensures UniqueNames(Put(m, c))
  {
    var r := Put(m, c);
    if FindName(m, c.name).Some? {
      assert forall j :: 0 <= j < |m| ==> r[j].name == m[j].name;
    }
  }

  lemma PutNames(prev: seq<Channel>, c: Channel, m: seq<Channel>)
    requires SameNames(m, prev)
    ensures SameNames(Put(m, c), prev + [c])
  {
    var r := Put(m, c);
    var cs := prev + [c];
    forall n ensures FindName(r, n).Some? <==> FindName(cs, n).Some? {
      FindNameAppend(prev, c, n);
      if FindName(m, c.name).Some? {
        FindNameUpdate(m, FindName(m, c.name).value, c, n);
      } else {
        FindNameAppend(m, c, n);
      }
    }
  }

  lemma LastIndexAppend(prev: seq<Channel>, c: Channel, n: string)
    ensures n == c.name ==> LastIndex(prev + [c], n) == Some(|prev|)
    ensures n != c.name ==> LastIndex(prev + [c], n) == LastIndex(prev, n)
  {
    assert (prev + [c])[..|prev|] == prev;
  }

  lemma PutLast(prev: seq<Channel>, c: Channel, m: seq<Channel>)
    requires UniqueNames(m) && HoldsLast(m, prev)
    ensures HoldsLast(Put(m, c), prev + [c])
  {
    var r := Put(m, c);
    var cs := prev + [c];
    forall i | 0 <= i < |r| ensures LastIndex(cs, r[i].name).Some? && r[i] == cs[LastIndex(cs, r[i].name).value] {
      LastIndexAppend(prev, c, r[i].name);
      if r[i].name != c.name {
        assert r[i] == m[i];
        assert cs[LastIndex(prev, r[i].name).value] == prev[LastIndex(prev, r[i].name).value];
      }
    }
  }

  /** The two consequences of SameNames that PutOrder uses. */
  lemma {:induction false} NamesKnown(m: seq<Channel>, prev: seq<Channel>, c: Channel)
    requires SameNames(m, prev)
    ensures forall i :: 0 <= i < |m| ==> FindName(prev, m[i].name).Some?
    ensures FindName(m, c.name).None? ==> FindName(prev, c.name).None?
  {
    forall i | 0 <= i < |m| ensures FindName(prev, m[i].name).Some? {
      assert FindName(m, m[i].name).Some?;
    }
  }

  lemma {:induction false} PutOrder(prev: seq<Channel>, c: Channel, m: seq<Channel>)
    requires forall i :: 0 <= i < |m| ==> FindName(prev, m[i].name).Some?
    requires FindName(m, c.name).None? ==> FindName(prev, c.name).None?
    requires FirstOccurrenceOrder(m, prev)
    ensures FirstOccurrenceOrder(Put(m, c), prev + [c])
  {
    match FindName(m, c.name)
    case Some(k) => PutOrderReplacing(prev, c, m, k);
    case None => PutOrderAppending(prev, c, m);
  }

  /** PutOrder when the name is already present: the entries keep their names. */
  lemma {:induction false} PutOrderReplacing(prev: seq<Channel>, c: Channel, m: seq<Channel>, k: nat)
    requires FindName(m, c.name) == Some(k)
    requires FirstOccurrenceOrder(m, prev)
    ensures FirstOccurrenceOrder(Put(m, c), prev + [c])
  {
    var r := Put(m, c);
    assert r == m[k := c];
    forall i, j | 0 <= i < j < |r| ensures FirstBefore(prev + [c], r[i].name, r[j].name) {
      assert r[i].name == m[i].name && r[j].name == m[j].name;
      assert FirstBefore(prev, m[i].name, m[j].name);
      OrderKept(prev, c, m[i].name, m[j].name);
    }
  }

  /** PutOrder when the name is new: it is appended after names that occur earlier. */
  lemma {:induction false} PutOrderAppending(prev: seq<Channel>, c: Channel, m: seq<Channel>)
    requires FindName(m, c.name).None?
    requires forall i :: 0 <= i < |m| ==> FindName(prev, m[i].name).Some?
    requires FindName(prev, c.name).None?
    requires FirstOccurrenceOrder(m, prev)
    ensures FirstOccurrenceOrder(Put(m, c), prev + [c])
  {
    var r := Put(m, c);
    assert r == m + [c];
    forall i, j | 0 <= i < j < |r| ensures FirstBefore(prev + [c], r[i].name, r[j].name) {
      assert r[i] == m[i];
      if j < |m| {
        assert r[j] == m[j];
        assert FirstBefore(prev, m[i].name, m[j].name);
        OrderKept(prev, c, m[i].name, m[j].name);
      } else {
        assert r[j] == c;
        assert FindName(prev, m[i].name).Some?;
        OrderNew(prev, c, m[i].name);
      }
    }
  }

  /** Appending a channel keeps the order of the first occurrences of two names already present. */
  lemma {:induction false} OrderKept(prev: seq<Channel>, c: Channel, a: string, b: string)
    requires FirstBefore(prev, a, b)
    ensures FirstBefore(prev + [c], a, b)
  {
    FindNameAppend(prev, c, a);
    FindNameAppend(prev, c, b);
  }

  /** A name first seen in the appended channel occurs after every name already present. */
  lemma {:induction false} OrderNew(prev: seq<Channel>, c: Channel, a: string)
    requires FindName(prev, a).Some? && FindName(prev, c.name).None?
    ensures FirstBefore(prev + [c], a, c.name)
  {
    FindNameAppend(prev, c, a);
    FindNameAppend(prev, c, c.name);
  }

  /** A repeated name is shown once, with the channel given last, at the place of its first occurrence. */
  lemma DedupExample(a: Channel, b: Channel, a2: Channel)
    requires a.name == a2.name && a.name != b.name
    ensures DedupByName([a, b, a2]) == [a2, b]
  {
    assert [a, b, a2][..2] == [a, b];
    assert [a, b][..1] == [a];
    assert [a][..0] == [];
    assert DedupByName([a]) == [a];
    assert FindName([a], b.name).None?;
    assert DedupByName([a, b]) == [a, b];
    assert FindName([a, b], a2.name) == Some(0);
  }

  /** A form: field name to field value. */
  type Form = map<string, Value>

  /** `{ ...formData, [e.target.name]: e.target.value }`: the named field changes and no other. */
  function HandleChange(form: Form, name: string, value: Value): (r: Form)
    ensures r.Keys == form.Keys + {name}
    ensures r[name] == value
    ensures forall k :: k in form && k != name ==> r[k] == form[k]
  {
    form[name := value]
  }

  /** `formData.budget`, undefined when the form has no such field. */
  function Field(form: Form, name: string): (v: Value)
    ensures name in form ==> v == form[name]
  {
    if name in form then form[name] else Undefined
  }

  /** A number as a JavaScript value: None is NaN. */
  function NumberValue(n: Option<real>): (v: Value)
    ensures n.Some? ==> v == Num(n.value)
    ensures n.None? ==> v == NaN
  {
    if n.Some? then Num(n.value) else NaN
  }

  /** `{ ...formData, budget: Number(formData.budget) }`. */
  function SubmitData(form: Form, co: Coercions): (r: Form)
    ensures r.Keys == form.Keys + {"budget"}
    ensures r["budget"] == NumberValue(ToNumber(Field(form, "budget"), co))
    ensures forall k :: k in form && k != "budget" ==> r[k] == form[k]
  {
    form["budget" := NumberValue(ToNumber(Field(form, "budget"), co))]
  }

  /** Submitting after typing into a field sends that field as typed, unless it is the budget. */
  lemma SubmitKeepsTypedField(form: Form, name: string, value: Value, co: Coercions)
    requires name != "budget"
    ensures SubmitData(HandleChange(form, name, value), co)[name] == value
    ensures SubmitData(HandleChange(form, "budget", value), co)["budget"] == NumberValue(ToNumber(value, co))
  {
  }
}
