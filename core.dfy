/** The environment contract and its result model: the ordered `Info`
    association list, the `Step` transition result, render frames, and the
    `Env` capability set as four transition functions over an environment
    state. */
module Core {
  import opened Common

  /** The value kinds an `Info` entry can hold. */
  datatype InfoValue = Bool(b: bool) | I64(i: int) | F64(f: real) | Str(s: string)

  type Entry = (string, InfoValue)

  /** The contents of an `Info` map, in insertion order. */
  type Entries = seq<Entry>

  predicate KeysUnique(es: Entries)
  {
    forall i, j :: 0 <= i < j < |es| ==> es[i].0 != es[j].0
  }

  function KeyList(es: Entries): (ks: seq<string>)
    ensures |ks| == |es|
    ensures forall i :: 0 <= i < |es| ==> ks[i] == es[i].0
  {
    if es == [] then [] else [es[0].0] + KeyList(es[1..])
  }

  /** Position of the first entry with key `k`; `|es|` when there is none. */
  function IndexOf(es: Entries, k: string): (i: nat)
    ensures i <= |es|
    ensures forall j :: 0 <= j < i ==> es[j].0 != k
    ensures i < |es| ==> es[i].0 == k
  {
    if es == [] then 0
    else if es[0].0 == k then 0
    else 1 + IndexOf(es[1..], k)
  }

  /** `Info::get`: the value of the first entry whose key is `k`. */
  function Find(es: Entries, k: string): (r: Option<InfoValue>)
    ensures r.Some? <==> exists i :: 0 <= i < |es| && es[i].0 == k
    ensures r.Some? ==> es[IndexOf(es, k)] == (k, r.value)
  {
    if es == [] then None
    else if es[0].0 == k then Some(es[0].1)
    else Find(es[1..], k)
  }

  /** `Info::insert`: overwrite the value of the first entry with key `k`
      where it stands, or append a new entry at the end. */
  function Inserted(es: Entries, k: string, v: InfoValue): Entries
  {
    if es == [] then [(k, v)]
    else if es[0].0 == k then [(k, v)] + es[1..]
    else [es[0]] + Inserted(es[1..], k, v)
  }

  /** The first entry with key `k` is overwritten where it stands; without
      one, the new entry goes at the end. */
  lemma {:induction false} InsertedAt(es: Entries, k: string, v: InfoValue)
    ensures IndexOf(es, k) < |es| ==> Inserted(es, k, v) == es[IndexOf(es, k) := (k, v)]
    ensures IndexOf(es, k) == |es| ==> Inserted(es, k, v) == es + [(k, v)]
  {
    if es != [] && es[0].0 != k {
      InsertedAt(es[1..], k, v);
      if IndexOf(es, k) < |es| {
        assert es[IndexOf(es, k) := (k, v)] == [es[0]] + es[1..][IndexOf(es[1..], k) := (k, v)];
      } else {
        assert es + [(k, v)] == [es[0]] + (es[1..] + [(k, v)]);
      }
    }
  }

  /** After `insert(k, v)`, `get(k)` is `v`. */
  lemma {:induction false} FindInsertedSame(es: Entries, k: string, v: InfoValue)
    ensures Find(Inserted(es, k, v), k) == Some(v)
  {
    if es != [] && es[0].0 != k {
      FindInsertedSame(es[1..], k, v);
      assert Inserted(es, k, v) == [es[0]] + Inserted(es[1..], k, v);
      assert (Inserted(es, k, v))[1..] == Inserted(es[1..], k, v);
    }
  }

  /** `insert(k, _)` does not change `get(k')` for any other key. */
  lemma {:induction false} FindInsertedOther(es: Entries, k: string, v: InfoValue, k': string)
    requires k' != k
    ensures Find(Inserted(es, k, v), k') == Find(es, k')
  {
    if es == [] {
    } else if es[0].0 == k {
      assert Inserted(es, k, v)[1..] == es[1..];
    } else {
      FindInsertedOther(es[1..], k, v, k');
      assert Inserted(es, k, v) == [es[0]] + Inserted(es[1..], k, v);
      assert (Inserted(es, k, v))[1..] == Inserted(es[1..], k, v);
    }
  }

  /** Replacing keeps length and key order; appending adds one key at the
      end and leaves the earlier entries untouched. */
  lemma InsertedShape(es: Entries, k: string, v: InfoValue)
    ensures IndexOf(es, k) < |es| ==>
      |Inserted(es, k, v)| == |es| && KeyList(Inserted(es, k, v)) == KeyList(es)
    ensures IndexOf(es, k) == |es| ==>
      |Inserted(es, k, v)| == |es| + 1 && Inserted(es, k, v)[..|es|] == es
      && Inserted(es, k, v)[|es|] == (k, v)
  {
    var r := Inserted(es, k, v);
    InsertedAt(es, k, v);
    if IndexOf(es, k) < |es| {
      assert KeyList(r) == KeyList(es);
    } else {
      assert r[..|es|] == es;
    }
  }

  /** Appending an entry with another key keeps a key absent. */
  lemma {:induction false} IndexOfAppendOther(es: Entries, k: string, e: Entry)
    requires IndexOf(es, k) == |es| && e.0 != k
    ensures IndexOf(es + [e], k) == |es| + 1
  {
    if es != [] {
      assert (es + [e])[1..] == es[1..] + [e];
      IndexOfAppendOther(es[1..], k, e);
    }
  }

  /** Keys stay pairwise distinct under `insert`. */
  lemma InsertedKeepsKeysUnique(es: Entries, k: string, v: InfoValue)
    requires KeysUnique(es)
    ensures KeysUnique(Inserted(es, k, v))
  {
    var r := Inserted(es, k, v);
    InsertedAt(es, k, v);
    var n := IndexOf(es, k);
    if n == |es| {
      forall i, j | 0 <= i < j < |r| ensures r[i].0 != r[j].0 {
        if j == |es| {
          assert r[i] == es[i];
        } else {
          assert r[i] == es[i] && r[j] == es[j];
        }
      }
    }
  }

  /** A sequence of inserts applied in order, starting from `es`. */
  function InsertAll(es: Entries, kvs: seq<Entry>): Entries
    decreases |kvs|
  {
    if kvs == [] then es else InsertAll(Inserted(es, kvs[0].0, kvs[0].1), kvs[1..])
  }

  /** Starting from `Info::new()`, any sequence of inserts leaves the keys
      pairwise distinct. */
  lemma {:induction false} InsertAllKeepsKeysUnique(es: Entries, kvs: seq<Entry>)
    requires KeysUnique(es)
    ensures KeysUnique(InsertAll(es, kvs))
    decreases |kvs|
  {
    if kvs != [] {
      InsertedKeepsKeysUnique(es, kvs[0].0, kvs[0].1);
      InsertAllKeepsKeysUnique(Inserted(es, kvs[0].0, kvs[0].1), kvs[1..]);
    }
  }

  /** The ordered info map, its entry list updated in place. */
  class Info {
    var entries: Entries

    ghost predicate Valid()
      reads this
    {
      KeysUnique(entries)
    }

    /** `Info::new()`. */
    constructor ()
      ensures entries == [] && Valid()
    {
      entries := [];
    }

    /** Takes over the entries of an existing info value, as
        `let mut info = s.info` does. */
    constructor Of(es: Entries)
      ensures entries == es
    {
      entries := es;
    }

    /** `insert`: find the first entry with key `k` and overwrite its value,
        or push a new entry. */
    method Insert(k: string, v: InfoValue)
      modifies this
      ensures entries == Inserted(old(entries), k, v)
      ensures Find(entries, k) == Some(v)
      ensures forall k' :: k' != k ==> Find(entries, k') == Find(old(entries), k')
      ensures old(Valid()) ==> Valid()
    {
      var i := 0;
      while i < |entries| && entries[i].0 != k
        invariant 0 <= i <= |entries|
        invariant forall j :: 0 <= j < i ==> entries[j].0 != k
      {
        i := i + 1;
      }
      ghost var before := entries;
      InsertedAt(before, k, v);
      ghost var at := IndexOf(before, k);
      assert i == at;
      if i < |entries| {
        entries := entries[i := (k, v)];
      } else {
        entries := entries + [(k, v)];
      }
      FindInsertedSame(before, k, v);
      forall k' | k' != k ensures Find(entries, k') == Find(before, k') {
        FindInsertedOther(before, k, v, k');
      }
      if KeysUnique(before) {
        InsertedKeepsKeysUnique(before, k, v);
      }
    }

    /** `get`: the value of the first entry with key `k`, if any. */
    function Get(k: string): (r: Option<InfoValue>)
      reads this
      ensures r.Some? <==> k in KeyList(entries)
      ensures r.Some? ==> entries[IndexOf(entries, k)] == (k, r.value)
    {
      Find(entries, k)
    }

    function Len(): (n: nat)
      reads this
    {
      |entries|
    }

    /** `is_empty` holds exactly when `len() == 0`. */
    predicate IsEmpty()
      reads this
      ensures IsEmpty() <==> Len() == 0
    {
      entries == []
    }
  }

  /** A pixel frame is row-major RGB (3 bytes per pixel) or RGBA (4). */
  datatype RenderFrame =
    | Text(text: string)
    | Pixels(width: u32, height: u32, data: seq<u8>)

  /** The transition result returned by every `step`. */
  datatype Step<O> = Step(observation: O, reward: real, terminated: bool, truncated: bool, info: Entries)

  /** `Step::new` stores its five arguments as they are. */
  function NewStep<O>(observation: O, reward: real, terminated: bool, truncated: bool, info: Entries): (s: Step<O>)
    ensures s.observation == observation && s.reward == reward
    ensures s.terminated == terminated && s.truncated == truncated && s.info == info
  {
    Step(observation, reward, terminated, truncated, info)
  }

  /** The `Env` capability set over an environment state `S`: `reset`
      returns the new state with `(observation, info)`, `step` the new state
      with its transition result; `close` is a hook on the state. */
  datatype Env<!S, !A, !O> = Env(
    reset: (S, Option<u64>) -> (S, (O, Entries)),
    step: (S, A) -> (S, Step<O>),
    render: S -> Option<RenderFrame>,
    close: S -> S)
}
