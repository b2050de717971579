/**
 * The dynamic checkbox page: a list of country codes kept in the session,
 * one boolean flag per code under the key "dynamic_checkbox_" + code, and a
 * selection rebuilt on every run from whichever flags are set.
 */
module CountrySelect {
  import opened PyStr

  /** Namespace of the flag keys. */
  const Prefix: string := "dynamic_checkbox_"

  /** Session key under which the candidate list is kept. */
  const SeedKey: string := "dummy_data"

  /** The candidate list the page starts from. */
  const InitialCodes: seq<string> := ["IND", "USA", "BRA", "MEX", "ARG"]

  /** A session value: a checkbox flag, or the stored list of codes. */
  datatype Value = Flag(on: bool) | CodeList(codes: seq<string>)

  /** Python truthiness of a session value. */
  predicate Truthy(v: Value)
    ensures Truthy(v) <==> v != Flag(false) && v != CodeList([])
  {
    match v
    case Flag(on) => on
    case CodeList(codes) => codes != []
  }

  predicate Distinct(s: seq<string>) {
    forall i, j :: 0 <= i < j < |s| ==> s[i] != s[j]
  }

  /**
   * The session store: a dictionary together with an order of its keys. The
   * store itself promises no key order; the model fixes insertion order, and
   * only the order-sensitive lemmas (SelectedConcat, SelectedAppend) rely on it.
   */
  datatype Dict = Dict(keys: seq<string>, vals: map<string, Value>) {

    /** `keys` lists every key of `vals` exactly once. */
    ghost predicate Valid() {
      Distinct(keys) && forall k :: k in vals <==> k in keys
    }

    /** `d[k] = v`: an existing key keeps its place, a new key goes last. */
    function Set(k: string, v: Value): (d: Dict)
      ensures Valid() ==> d.Valid()
      ensures d.vals == vals[k := v]
      ensures keys <= d.keys && k in d.vals
    {
      if k in vals then Dict(keys, vals[k := v]) else Dict(keys + [k], vals[k := v])
    }

    /** A widget registering its key: the default `v` is written only when `k` is absent. */
    function SetDefault(k: string, v: Value): (d: Dict)
      ensures Valid() ==> d.Valid()
      ensures k in d.vals && (k in vals ==> d == this)
      ensures k !in vals ==> d.vals == vals[k := v] && d.keys == keys + [k]
      ensures k !in vals ==> d.vals[k] == v
    {
      if k in vals then this else Set(k, v)
    }
  }

  /** The key of the flag that belongs to `code`. */
  function FlagKey(code: string): (k: string)
    ensures StartsWith(k, Prefix) && k[|Prefix|..] == code
    ensures k != SeedKey
  {
    assert (Prefix + code)[..|Prefix|] == Prefix;
    Prefix + code
  }

  /** `key.replace('dynamic_checkbox_', '')` */
  function Strip(key: string): (r: string)
    ensures |r| <= |key|
    ensures !Occurs(Prefix, key) ==> r == key
    ensures StartsWith(key, Prefix) && !Occurs(Prefix, key[|Prefix|..]) ==> r == key[|Prefix|..]
  {
    RemoveAll(key, Prefix)
  }

  /** A key that contributes to the selection: it carries the prefix and holds a truthy value. */
  predicate Chosen(vals: map<string, Value>, k: string)
    ensures Chosen(vals, k) ==> k != SeedKey
    ensures k in vals && vals[k] == Flag(false) ==> !Chosen(vals, k)
  {
    assert !StartsWith(SeedKey, Prefix);
    StartsWith(k, Prefix) && k in vals && Truthy(vals[k])
  }

  /** The comprehension of get_selected_checkboxes, over the keys in iteration order. */
  function SelectedFrom(keys: seq<string>, vals: map<string, Value>): (r: seq<string>)
    ensures |r| <= |keys|
  {
    if keys == [] then []
    else (if Chosen(vals, keys[0]) then [Strip(keys[0])] else []) + SelectedFrom(keys[1..], vals)
  }

  /**
   * get_selected_checkboxes on a session: the stripped code of every chosen key
   * and nothing else, with no more entries than keys.
   */
  function Selected(d: Dict): (r: seq<string>)
    ensures |r| <= |d.keys|
    ensures forall k <- d.keys :: Chosen(d.vals, k) ==> Strip(k) in r
    ensures forall x <- r :: exists k <- d.keys :: Chosen(d.vals, k) && Strip(k) == x
  {
    SelectedMembers(d.keys, d.vals);
    SelectedFrom(d.keys, d.vals)
  }

  // ---------------------------------------------------------------------------
  // The selection query

  /** The selection follows the key order: keys listed later contribute later. */
  lemma {:induction false} SelectedConcat(a: seq<string>, b: seq<string>, vals: map<string, Value>)
    ensures SelectedFrom(a + b, vals) == SelectedFrom(a, vals) + SelectedFrom(b, vals)
  {
    if a == [] {
      assert a + b == b;
    } else {
      assert (a + b)[0] == a[0] && (a + b)[1..] == a[1..] + b;
      SelectedConcat(a[1..], b, vals);
    }
  }

  /** A key added last adds its stripped code last, exactly when it is chosen. */
  lemma SelectedAppend(keys: seq<string>, k: string, vals: map<string, Value>)
    ensures SelectedFrom(keys + [k], vals)
            == SelectedFrom(keys, vals) + (if Chosen(vals, k) then [Strip(k)] else [])
  {
    SelectedConcat(keys, [k], vals);
  }

  /** A key without the prefix, or whose flag is false, contributes nothing wherever it stands. */
  lemma UnchosenIgnored(a: seq<string>, k: string, b: seq<string>, vals: map<string, Value>)
    requires !Chosen(vals, k)
    ensures SelectedFrom(a + [k] + b, vals) == SelectedFrom(a + b, vals)
  {
    SelectedConcat(a + [k], b, vals);
    SelectedAppend(a, k, vals);
    SelectedConcat(a, b, vals);
  }

  /** The selection depends on the values only through which keys are chosen. */
  lemma {:induction false} SelectedFrame(keys: seq<string>, v1: map<string, Value>, v2: map<string, Value>)
    requires forall k <- keys :: Chosen(v1, k) == Chosen(v2, k)
    ensures SelectedFrom(keys, v1) == SelectedFrom(keys, v2)
  {
    if keys != [] {
      SelectedFrame(keys[1..], v1, v2);
    }
  }

  /** Every chosen key contributes its stripped code. */
  lemma {:induction false} SelectedComplete(keys: seq<string>, vals: map<string, Value>, i: nat)
    requires i < |keys| && Chosen(vals, keys[i])
    ensures Strip(keys[i]) in SelectedFrom(keys, vals)
  {
    if i > 0 {
      SelectedComplete(keys[1..], vals, i - 1);
    }
  }

  /** Taking the first key of `a` and the same key out of `b` keeps two permutations permutations. */
  lemma RemoveOne(a: seq<string>, b: seq<string>, i: nat)
    requires multiset(a) == multiset(b) && a != [] && i < |b| && b[i] == a[0]
    ensures multiset(a[1..]) == multiset(b[..i] + b[i + 1..])
  {
    assert a == [a[0]] + a[1..];
    assert b == b[..i] + [b[i]] + b[i + 1..];
    assert multiset(a[1..]) == multiset(a) - multiset{a[0]};
    assert multiset(b[..i] + b[i + 1..]) == multiset(b) - multiset{b[i]};
  }

  /** Putting `own` in front or between two parts gives the same multiset. */
  lemma MultisetMiddle(own: seq<string>, x: seq<string>, front: seq<string>, back: seq<string>)
    requires multiset(x) == multiset(front + back)
    ensures multiset(own + x) == multiset(front + own + back)
  {
    assert multiset(front + own + back) == multiset(front) + multiset(own) + multiset(back);
  }

  /**
   * Whatever order the keys come in, the selection holds the same codes with
   * the same multiplicities.
   */
  lemma {:induction false} SelectedPerm(a: seq<string>, b: seq<string>, vals: map<string, Value>)
    requires multiset(a) == multiset(b)
    ensures multiset(SelectedFrom(a, vals)) == multiset(SelectedFrom(b, vals))
    decreases |a|
  {
    if a != [] {
      var k := a[0];
      assert k in multiset(b);
      var i :| 0 <= i < |b| && b[i] == k;
      var front, back := b[..i], b[i + 1..];
      assert b == front + [k] + back;
      RemoveOne(a, b, i);
      SelectedPerm(a[1..], front + back, vals);
      var own := if Chosen(vals, k) then [Strip(k)] else [];
      SelectedConcat(front + [k], back, vals);
      SelectedAppend(front, k, vals);
      SelectedConcat(front, back, vals);
      assert SelectedFrom(a, vals) == own + SelectedFrom(a[1..], vals);
      MultisetMiddle(own, SelectedFrom(a[1..], vals), SelectedFrom(front, vals), SelectedFrom(back, vals));
    }
  }

  /** Every element of the selection is the stripped form of a chosen key. */
  lemma {:induction false} SelectedSound(keys: seq<string>, vals: map<string, Value>, x: string)
    requires x in SelectedFrom(keys, vals)
    ensures exists k :: k in keys && Chosen(vals, k) && Strip(k) == x
  {
    if !(Chosen(vals, keys[0]) && Strip(keys[0]) == x) {
      SelectedSound(keys[1..], vals, x);
      var k :| k in keys[1..] && Chosen(vals, k) && Strip(k) == x;
      assert k in keys;
    }
  }

  /** Membership in the selection, for all keys at once. */
  lemma {:induction false} SelectedMembers(keys: seq<string>, vals: map<string, Value>)
    ensures forall k <- keys :: Chosen(vals, k) ==> Strip(k) in SelectedFrom(keys, vals)
    ensures forall x <- SelectedFrom(keys, vals) :: exists k <- keys :: Chosen(vals, k) && Strip(k) == x
  {
    forall k <- keys | Chosen(vals, k)
      ensures Strip(k) in SelectedFrom(keys, vals)
    {
      var i :| 0 <= i < |keys| && keys[i] == k;
      SelectedComplete(keys, vals, i);
    }
    forall x <- SelectedFrom(keys, vals)
      ensures exists k <- keys :: Chosen(vals, k) && Strip(k) == x
    {
      SelectedSound(keys, vals, x);
    }
  }

  // ---------------------------------------------------------------------------
  // Flag keys

  /** Distinct codes have distinct flag keys. */
  lemma FlagKeyInjective(a: string, b: string)
    requires FlagKey(a) == FlagKey(b)
    ensures a == b
  {
  }

  /** Stripping a flag key gives the code back when the code does not contain the prefix. */
  lemma FlagKeyRoundTrip(c: string)
    requires !Occurs(Prefix, c)
    ensures Strip(FlagKey(c)) == c
  {
  }

  /** A code containing the prefix is reported without it: "dynamic_checkbox_X" shows as "X". */
  lemma PrefixedCodeMisreported()
    ensures Strip(FlagKey(Prefix + "X")) == "X"
  {
    RemoveAllLeading(Prefix, Prefix + "X");
    RemoveAllLeading(Prefix, "X");
    assert !Occurs(Prefix, "X");
  }

  /** No flag key in `keys` belongs to a code that itself contains the prefix. */
  ghost predicate CleanFlags(keys: seq<string>) {
    forall k <- keys :: StartsWith(k, Prefix) ==> !Occurs(Prefix, k[|Prefix|..])
  }

  lemma StripClean(k: string)
    requires StartsWith(k, Prefix) && !Occurs(Prefix, k[|Prefix|..])
    ensures Strip(k) == k[|Prefix|..] && k == FlagKey(Strip(k))
  {
  }

  /** Setting a code's flag to true makes the code appear in the selection. */
  lemma ToggleOnSelects(d: Dict, c: string)
    requires d.Valid() && !Occurs(Prefix, c)
    ensures c in Selected(d.Set(FlagKey(c), Flag(true)))
  {
  }

  /** Setting a code's flag to false removes the code from the selection. */
  lemma ToggleOffDeselects(d: Dict, c: string)
    requires d.Valid() && !Occurs(Prefix, c) && CleanFlags(d.keys)
    ensures c !in Selected(d.Set(FlagKey(c), Flag(false)))
  {
  }

  // ---------------------------------------------------------------------------
  // Seeding and growing the candidate list

  /** Lines 4-7: the initial list is stored only when the session has none yet. */
  function Seeded(d: Dict): (r: Dict)
    ensures d.Valid() ==> r.Valid()
    ensures SeedKey in r.vals
    ensures SeedKey in d.vals ==> r == d
    ensures SeedKey !in d.vals ==> r.vals[SeedKey] == CodeList(InitialCodes) && r.keys == d.keys + [SeedKey]
    ensures SeedKey !in d.vals ==> r.vals == d.vals[SeedKey := CodeList(InitialCodes)]
  {
    if SeedKey in d.vals then d else d.Set(SeedKey, CodeList(InitialCodes))
  }

  /** Seeding twice is seeding once. */
  lemma SeedIdempotent(d: Dict)
    ensures Seeded(Seeded(d)) == Seeded(d)
  {
  }

  /** Seeding never changes the selection: the seed key carries no prefix. */
  lemma SeedKeepsSelection(d: Dict)
    ensures Selected(Seeded(d)) == Selected(d)
  {
    if SeedKey !in d.vals {
      var r := Seeded(d);
      assert !StartsWith(SeedKey, Prefix);
      SelectedFrame(d.keys, d.vals, r.vals);
      SelectedAppend(d.keys, SeedKey, r.vals);
    }
  }

  /** Lines 13-15: a non-empty code not yet listed is appended at the end. */
  function AppendIfAbsent(data: seq<string>, input: string): (r: seq<string>)
    ensures |r| == if input != "" && input !in data then |data| + 1 else |data|
    ensures r[..|data|] == data
    ensures input != "" ==> input in r
    ensures forall x <- r :: x in data || x == input
    ensures Distinct(data) ==> Distinct(r)
  {
    if input != "" && input !in data then data + [input] else data
  }

  /** Submitting the same code again changes nothing. */
  lemma AppendIdempotent(data: seq<string>, input: string)
    ensures AppendIfAbsent(AppendIfAbsent(data, input), input) == AppendIfAbsent(data, input)
  {
  }

  /** Lines 13-15 applied to the list stored in the session. */
  function AddCode(d: Dict, input: string): (r: Dict)
    requires SeedKey in d.vals && d.vals[SeedKey].CodeList?
    ensures d.Valid() ==> r.Valid()
    ensures SeedKey in r.vals && r.vals[SeedKey] == CodeList(AppendIfAbsent(d.vals[SeedKey].codes, input))
    ensures forall k :: k != SeedKey ==> (k in r.vals <==> k in d.vals)
    ensures forall k :: k != SeedKey && k in d.vals ==> r.vals[k] == d.vals[k]
    ensures r.keys == d.keys
  {
    var codes := d.vals[SeedKey].codes;
    if input != "" && input !in codes then d.Set(SeedKey, CodeList(codes + [input])) else d
  }

  /** Growing the stored list never changes the selection: the seed key carries no prefix. */
  lemma AddCodeKeepsSelection(d: Dict, input: string)
    requires d.Valid() && SeedKey in d.vals && d.vals[SeedKey].CodeList?
    ensures Selected(AddCode(d, input)) == Selected(d)
  {
    var r := AddCode(d, input);
    assert !StartsWith(SeedKey, Prefix);
    assert r.keys == d.keys;
    SelectedFrame(d.keys, d.vals, r.vals);
  }

  /**
   * Lines 16-17: one checkbox per code, in list order. Each checkbox registers
   * its key with the default false and keeps a value already there.
   */
  function RegisterFlags(d: Dict, codes: seq<string>): (r: Dict)
    ensures d.Valid() ==> r.Valid()
    ensures forall c <- codes :: FlagKey(c) in r.vals
    ensures forall k :: k in d.vals ==> k in r.vals && r.vals[k] == d.vals[k]
    ensures forall k :: k in r.vals && k !in d.vals ==> r.vals[k] == Flag(false)
    ensures forall k :: k in r.vals && k !in d.vals ==> exists c :: c in codes && k == FlagKey(c)
    ensures d.keys <= r.keys
    decreases |codes|
  {
    if codes == [] then d
    else RegisterFlags(d.SetDefault(FlagKey(codes[0]), Flag(false)), codes[1..])
  }

  /** Registering checkboxes never changes the selection: new flags start false. */
  lemma {:induction false} RegisterKeepsSelection(d: Dict, codes: seq<string>)
    ensures Selected(RegisterFlags(d, codes)) == Selected(d)
    decreases |codes|
  {
    if codes != [] {
      var k := FlagKey(codes[0]);
      var next := d.SetDefault(k, Flag(false));
      RegisterKeepsSelection(next, codes[1..]);
      if k !in d.vals {
        assert next.keys == d.keys + [k] && next.vals == d.vals[k := Flag(false)];
        assert forall k' <- d.keys :: Chosen(d.vals, k') == Chosen(next.vals, k');
        SelectedFrame(d.keys, d.vals, next.vals);
        SelectedAppend(d.keys, k, next.vals);
        assert Selected(next) == SelectedFrom(next.keys, next.vals) == SelectedFrom(d.keys, d.vals);
      }
    }
  }

  /** One turn of the checkbox loop: the code at `i` registers its flag, then the rest follow. */
  lemma RegisterStep(d: Dict, codes: seq<string>, i: nat)
    requires i < |codes|
    ensures RegisterFlags(d, codes[i..]) == RegisterFlags(d.SetDefault(FlagKey(codes[i]), Flag(false)), codes[i + 1..])
  {
  }

  /** The loop of lines 16-17: one checkbox per code, in list order. */
  method RegisterCheckboxes(d: Dict, data: seq<string>) returns (registered: Dict)
    ensures registered == RegisterFlags(d, data)
  {
    registered := d;
    var i := 0;
    while i < |data|
      invariant 0 <= i <= |data|
      invariant RegisterFlags(registered, data[i..]) == RegisterFlags(d, data)
    {
      RegisterStep(registered, data, i);
      registered := registered.SetDefault(FlagKey(data[i]), Flag(false));
      i := i + 1;
    }
    assert data[i..] == [];
  }

  /** Lines 13-17: the session after checkbox_container. */
  function Container(d: Dict, input: string): (r: Dict)
    requires SeedKey in d.vals && d.vals[SeedKey].CodeList?
    ensures SeedKey in r.vals && r.vals[SeedKey] == CodeList(AppendIfAbsent(d.vals[SeedKey].codes, input))
    ensures forall c <- r.vals[SeedKey].codes :: FlagKey(c) in r.vals
  {
    var grown := AddCode(d, input);
    RegisterFlags(grown, grown.vals[SeedKey].codes)
  }

  /** checkbox_container keeps the store well formed, every other key's value, and the selection. */
  lemma ContainerEffect(d: Dict, input: string)
    requires d.Valid() && SeedKey in d.vals && d.vals[SeedKey].CodeList?
    ensures Container(d, input).Valid()
    ensures forall k :: k in d.vals && k != SeedKey ==>
              k in Container(d, input).vals && Container(d, input).vals[k] == d.vals[k]
    ensures Selected(Container(d, input)) == Selected(d)
  {
    var grown := AddCode(d, input);
    AddCodeKeepsSelection(d, input);
    RegisterKeepsSelection(grown, grown.vals[SeedKey].codes);
  }

  // ---------------------------------------------------------------------------
  // The page

  /** The session of one user of the checkbox page. */
  class CountryPage {
    var session: Dict

    /** The store is a well-formed dictionary, and the stored list is a list of distinct codes. */
    ghost predicate Valid()
      reads this
    {
      && session.Valid()
      && (SeedKey in session.vals ==>
            session.vals[SeedKey].CodeList? && Distinct(session.vals[SeedKey].codes))
    }

    /** A new session holds nothing. */
    constructor ()
      ensures Valid() && session == Dict([], map[])
    {
      session := Dict([], map[]);
    }

    /** The current selection. */
    function Selection(): (r: seq<string>)
      reads this
      ensures forall k <- session.keys :: Chosen(session.vals, k) ==> Strip(k) in r
      ensures forall x <- r :: exists k <- session.keys :: Chosen(session.vals, k) && Strip(k) == x
    {
      Selected(session)
    }

    /** Lines 4-7: store the initial list unless one is stored, and read back the stored list. */
    method Seed() returns (data: seq<string>)
      requires Valid()
      modifies this
      ensures Valid()
      ensures session == Seeded(old(session))
      ensures data == session.vals[SeedKey].codes
      ensures Selection() == old(Selection())
    {
      if SeedKey !in session.vals {
        session := session.Set(SeedKey, CodeList(InitialCodes));
      }
      data := session.vals[SeedKey].codes;
      SeedKeepsSelection(old(session));
    }

    /**
     * Lines 10-17. The list checkbox_container receives is the very list object
     * stored under "dummy_data", so appending to it changes the stored entry.
     */
    method CheckboxContainer(input: string)
      requires Valid() && SeedKey in session.vals
      modifies this
      ensures Valid() && SeedKey in session.vals
      ensures session == Container(old(session), input)
      ensures session.vals[SeedKey].codes == AppendIfAbsent(old(session.vals[SeedKey].codes), input)
      ensures forall c <- session.vals[SeedKey].codes :: FlagKey(c) in session.vals
      ensures forall k :: k in old(session.vals) && k != SeedKey ==> k in session.vals && session.vals[k] == old(session.vals[k])
      ensures Selection() == old(Selection())
    {
      ghost var d0 := session;
      var data := session.vals[SeedKey].codes;
      if input != "" {
        if input !in data {
          data := data + [input];
          session := session.Set(SeedKey, CodeList(data));
        }
      }
      assert session == AddCode(d0, input) && data == session.vals[SeedKey].codes;
      session := RegisterCheckboxes(session, data);
      ContainerEffect(d0, input);
    }

    /** The user ticks or clears the checkbox of `code`: the front end writes its flag. */
    method Toggle(code: string, on: bool)
      requires Valid()
      modifies this
      ensures Valid()
      ensures session == old(session).Set(FlagKey(code), Flag(on))
      ensures !Occurs(Prefix, code) && on ==> code in Selection()
      ensures !Occurs(Prefix, code) && !on && CleanFlags(old(session).keys) ==> code !in Selection()
    {
      assert FlagKey(code) != SeedKey by { assert StartsWith(FlagKey(code), Prefix); }
      if !Occurs(Prefix, code) {
        if on {
          ToggleOnSelects(session, code);
        } else if CleanFlags(session.keys) {
          ToggleOffDeselects(session, code);
        }
      }
      session := session.Set(FlagKey(code), Flag(on));
    }

    /** Lines 25-27: one run of the page script, returning what it displays. */
    method Rerun(input: string) returns (selected: seq<string>)
      requires Valid()
      modifies this
      ensures Valid() && SeedKey in session.vals
      ensures session == Container(Seeded(old(session)), input)
      ensures session.vals[SeedKey].codes
              == AppendIfAbsent(Seeded(old(session)).vals[SeedKey].codes, input)
      ensures forall c <- session.vals[SeedKey].codes :: FlagKey(c) in session.vals
      ensures selected == Selection() == old(Selection())
    {
      var data := Seed();
      CheckboxContainer(input);
      selected := Selection();
    }
  }
}
