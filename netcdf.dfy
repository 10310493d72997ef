/**
 * The netCDF dataset, seen only through the capabilities the writers use:
 * create a dimension, create a variable, set an attribute (on the dataset or on
 * a variable), and write a variable's values.
 *
 * A dataset is a value `Store` — its dimensions, its variables, its global
 * attributes, and the order in which its variables were defined — and the class
 * `Dataset` holds the same four fields and updates them in place. netCDF raises
 * an error on a duplicate dimension, on a duplicate variable and on a variable
 * over a dimension that does not exist; the model returns `ok == false` there and
 * leaves the dataset as it was, and every failing sequence of calls is described
 * by `Run(false, s)`, `s` being the state the dataset was in when the error rose.
 */
module NetCDF {

  datatype Option<+T> = None | Some(value: T)

  /** An element of a data array whose bits the model does not look at. */
  type Cell(==)

  /** An attribute value: a string, or a number kept as its literal text. */
  datatype AttrValue = Text(text: string) | Number(literal: string)

  /** The element type a variable is created with. */
  datatype DType =
    | Float64          // np.float
    | Int64            // int
    | Char1            // 'S1'
    | Other(name: string)

  /** An element written into a variable. */
  datatype Value =
    | Whole(n: int)    // an integer-valued number: an id, a second count
    | Datum(cell: Cell)

  datatype Var = Var(
    dtype: DType,
    dims: seq<string>,
    attrs: map<string, AttrValue>,
    fill: Option<AttrValue>,
    data: Option<seq<Value>>)

  /** What `setncattr` is called on: the dataset itself, or one of its variables. */
  datatype Target = Global | Variable(name: string)

  datatype Store = Store(
    dims: map<string, nat>,
    vars: map<string, Var>,
    globals: map<string, AttrValue>,
    order: seq<string>)

  /** Outcome of a sequence of dataset calls: whether it ran to the end, and the state reached. */
  datatype Run = Run(ok: bool, store: Store)

  const EMPTY := Store(map[], map[], map[], [])

  predicate DimsExist(s: Store, dims: seq<string>) {
    forall d :: d in dims ==> d in s.dims
  }

  predicate Distinct(xs: seq<string>) {
    forall i, j :: 0 <= i < j < |xs| ==> xs[i] != xs[j]
  }

  lemma AppendAssociates<T>(a: seq<T>, b: seq<T>, c: seq<T>)
    ensures (a + b) + c == a + (b + c)
  {
  }

  /** Defining one entry and then merging a map is merging the entry and the map. */
  lemma MergeAfterUpdate<K, V>(m: map<K, V>, k: K, v: V, n: map<K, V>)
    ensures m[k := v] + n == m + (map[k := v] + n)
  {
  }

  /** What netCDF keeps true of every dataset: variables sit on existing dimensions, and the definition order lists each variable once. */
  ghost predicate Coherent(s: Store) {
    && (forall n :: n in s.vars ==> DimsExist(s, s.vars[n].dims))
    && (forall n :: n in s.vars <==> n in s.order)
    && Distinct(s.order)
  }

  /** A newly defined variable, appended to the definition order. */
  function AddVariable(s: Store, name: string, v: Var): Store {
    s.(vars := s.vars[name := v], order := s.order + [name])
  }

  /** `createDimension(name, size)`: fails on a name already in use. */
  function CreateDim(s: Store, name: string, size: nat): Run {
    if name in s.dims then Run(false, s)
    else Run(true, s.(dims := s.dims[name := size]))
  }

  /** `createVariable(name, dtype, dims, fill_value)`: fails on a name in use or an unknown dimension. */
  function CreateVar(s: Store, name: string, dtype: DType, dims: seq<string>, fill: Option<AttrValue>): Run {
    if name in s.vars || !DimsExist(s, dims) then Run(false, s)
    else Run(true, AddVariable(s, name, Var(dtype, dims, map[], fill, None)))
  }

  predicate Has(s: Store, t: Target) {
    t.Global? || t.name in s.vars
  }

  function AttrsOf(s: Store, t: Target): map<string, AttrValue>
    requires Has(s, t)
  {
    if t.Global? then s.globals else s.vars[t.name].attrs
  }

  /** `setncattr(key, value)` on the dataset or on one variable. */
  function SetAttr(s: Store, t: Target, key: string, value: AttrValue): Store
    requires Has(s, t)
  {
    if t.Global? then s.(globals := s.globals[key := value])
    else s.(vars := s.vars[t.name := s.vars[t.name].(attrs := s.vars[t.name].attrs[key := value])])
  }

  /** The effect of one `setncattr` per entry of `d`, in any order. */
  function SetAttrs(s: Store, t: Target, d: map<string, AttrValue>): Store
    requires Has(s, t)
  {
    if t.Global? then s.(globals := s.globals + d)
    else s.(vars := s.vars[t.name := s.vars[t.name].(attrs := s.vars[t.name].attrs + d)])
  }

  /** A Python dict of attributes, as the ordered sequence of its items. */
  type Attributes = seq<(string, AttrValue)>

  /** The dict's items have distinct keys. */
  predicate DistinctKeys(items: Attributes) {
    forall i, j :: 0 <= i < j < |items| ==> items[i].0 != items[j].0
  }

  /** The mapping a sequence of items describes, a later item winning over an earlier one with its key. */
  function ToMap(items: Attributes): map<string, AttrValue> {
    if items == [] then map[]
    else ToMap(items[..|items| - 1])[items[|items| - 1].0 := items[|items| - 1].1]
  }

  /** One `setncattr` per item, in the dict's order. */
  function SetEach(s: Store, t: Target, items: Attributes): (r: Store)
    requires Has(s, t)
    ensures r.vars.Keys == s.vars.Keys
  {
    if items == [] then s
    else
      var last := items[|items| - 1];
      SetAttr(SetEach(s, t, items[..|items| - 1]), t, last.0, last.1)
  }

  /** `v[:] = data`: replaces the values of one variable. */
  function WriteData(s: Store, name: string, data: seq<Value>): Store
    requires name in s.vars
  {
    s.(vars := s.vars[name := s.vars[name].(data := Some(data))])
  }

  /**
   * After setting the attributes `d`, every key of `d` holds its value from `d`,
   * a key already present is overwritten, and the target's other attributes,
   * the other variables and the dimensions are as they were.
   */
  lemma SetAttrsEffect(s: Store, t: Target, d: map<string, AttrValue>)
    requires Has(s, t)
    ensures var r := SetAttrs(s, t, d);
      && Has(r, t)
      && AttrsOf(r, t).Keys == AttrsOf(s, t).Keys + d.Keys
      && (forall k :: k in d ==> AttrsOf(r, t)[k] == d[k])
      && (forall k :: k in AttrsOf(s, t) && k !in d ==> AttrsOf(r, t)[k] == AttrsOf(s, t)[k])
      && r.dims == s.dims && r.order == s.order && r.vars.Keys == s.vars.Keys
      && (t.Variable? ==> r.globals == s.globals)
      && (forall n :: n in s.vars && t != Variable(n) ==> r.vars[n] == s.vars[n])
  {
  }

  /** One `setncattr` is setting a one-entry map. */
  lemma SetAttrIsSetAttrs(s: Store, t: Target, key: string, value: AttrValue)
    requires Has(s, t)
    ensures SetAttr(s, t, key, value) == SetAttrs(s, t, map[key := value])
  {
    if t.Variable? {
      var a := s.vars[t.name].attrs;
      assert a[key := value] == a + map[key := value];
    } else {
      assert s.globals[key := value] == s.globals + map[key := value];
    }
  }

  /** Setting two attribute maps one after the other is setting their union, the later one winning. */
  lemma SetAttrsTwice(s: Store, t: Target, a: map<string, AttrValue>, b: map<string, AttrValue>)
    requires Has(s, t)
    ensures SetAttrs(SetAttrs(s, t, a), t, b) == SetAttrs(s, t, a + b)
  {
    if t.Variable? {
      var v := s.vars[t.name];
      assert v.attrs + a + b == v.attrs + (a + b);
    } else {
      assert s.globals + a + b == s.globals + (a + b);
    }
  }

  /** The dict's keys are the keys of its items, and each item's value is the one kept for its key. */
  lemma {:induction false} ToMapOfDistinct(items: Attributes)
    requires DistinctKeys(items)
    ensures ToMap(items).Keys == set i | 0 <= i < |items| :: items[i].0
    ensures forall i :: 0 <= i < |items| ==> ToMap(items)[items[i].0] == items[i].1
  {
    if items != [] {
      var init := items[..|items| - 1];
      assert DistinctKeys(init);
      ToMapOfDistinct(init);
      assert forall i :: 0 <= i < |init| ==> init[i] == items[i];
    }
  }

  /** Setting the items one after the other is setting the mapping they describe. */
  lemma {:induction false} SetEachIsSetAttrs(s: Store, t: Target, items: Attributes)
    requires Has(s, t)
    ensures SetEach(s, t, items) == SetAttrs(s, t, ToMap(items))
  {
    if items == [] {
      if t.Variable? {
        assert s.vars[t.name].attrs + map[] == s.vars[t.name].attrs;
        assert s.vars[t.name := s.vars[t.name]] == s.vars;
      } else {
        assert s.globals + map[] == s.globals;
      }
    } else {
      var init := items[..|items| - 1];
      var last := items[|items| - 1];
      SetEachIsSetAttrs(s, t, init);
      SetAttrIsSetAttrs(SetAttrs(s, t, ToMap(init)), t, last.0, last.1);
      SetAttrsTwice(s, t, ToMap(init), map[last.0 := last.1]);
      assert ToMap(init) + map[last.0 := last.1] == ToMap(items);
    }
  }

  /** Setting an attribute on a variable just added is adding it with that attribute. */
  lemma SetAttrOfAdded(s: Store, name: string, v: Var, key: string, value: AttrValue)
    ensures Has(AddVariable(s, name, v), Variable(name))
    ensures SetAttr(AddVariable(s, name, v), Variable(name), key, value)
            == AddVariable(s, name, v.(attrs := v.attrs[key := value]))
  {
    assert s.vars[name := v][name := v.(attrs := v.attrs[key := value])] == s.vars[name := v.(attrs := v.attrs[key := value])];
  }

  /** Setting several attributes on a variable just added is adding it with them. */
  lemma SetAttrsOfAdded(s: Store, name: string, v: Var, d: map<string, AttrValue>)
    ensures Has(AddVariable(s, name, v), Variable(name))
    ensures SetAttrs(AddVariable(s, name, v), Variable(name), d)
            == AddVariable(s, name, v.(attrs := v.attrs + d))
  {
    assert s.vars[name := v][name := v.(attrs := v.attrs + d)] == s.vars[name := v.(attrs := v.attrs + d)];
  }

  /** Writing the values of a variable just added is adding it with those values. */
  lemma WriteDataOfAdded(s: Store, name: string, v: Var, data: seq<Value>)
    ensures name in AddVariable(s, name, v).vars
    ensures WriteData(AddVariable(s, name, v), name, data) == AddVariable(s, name, v.(data := Some(data)))
  {
    assert s.vars[name := v][name := v.(data := Some(data))] == s.vars[name := v.(data := Some(data))];
  }

  /** None of the dataset operations breaks what netCDF keeps true. */
  lemma OperationsKeepCoherent(s: Store, name: string, size: nat, dtype: DType, dims: seq<string>,
                               fill: Option<AttrValue>, t: Target, d: map<string, AttrValue>, data: seq<Value>)
    requires Coherent(s)
    ensures Coherent(CreateDim(s, name, size).store)
    ensures Coherent(CreateVar(s, name, dtype, dims, fill).store)
    ensures Has(s, t) ==> Coherent(SetAttrs(s, t, d))
    ensures name in s.vars ==> Coherent(WriteData(s, name, data))
  {
    var c := CreateVar(s, name, dtype, dims, fill);
    if c.ok {
      var o := c.store.order;
      assert o == s.order + [name];
      forall i, j | 0 <= i < j < |o| ensures o[i] != o[j] {
        if j == |o| - 1 {
          assert o[i] in s.order;
        }
      }
    }
  }

  /** The dataset object the writers fill in. */
  class Dataset {
    var dims: map<string, nat>
    var vars: map<string, Var>
    var globals: map<string, AttrValue>
    var order: seq<string>

    function Snapshot(): Store
      reads this
    {
      Store(dims, vars, globals, order)
    }

    /** A newly created, empty dataset. */
    constructor ()
      ensures Snapshot() == EMPTY
    {
      dims, vars, globals, order := map[], map[], map[], [];
    }

    method CreateDimension(name: string, size: nat) returns (ok: bool)
      modifies this
      ensures ok <==> name !in old(dims)
      ensures Run(ok, Snapshot()) == CreateDim(old(Snapshot()), name, size)
    {
      ok := name !in dims;
      if ok {
        dims := dims[name := size];
      }
    }

    method CreateVariable(name: string, dtype: DType, dimensions: seq<string>, fill: Option<AttrValue>)
      returns (ok: bool)
      modifies this
      ensures ok <==> name !in old(vars) && (forall d :: d in dimensions ==> d in old(dims))
      ensures Run(ok, Snapshot()) == CreateVar(old(Snapshot()), name, dtype, dimensions, fill)
    {
      ok := name !in vars && (forall d :: d in dimensions ==> d in dims);
      if ok {
        vars := vars[name := Var(dtype, dimensions, map[], fill, None)];
        order := order + [name];
      }
    }

    method SetNcAttr(t: Target, key: string, value: AttrValue)
      requires Has(Snapshot(), t)
      modifies this
      ensures Snapshot() == SetAttr(old(Snapshot()), t, key, value)
    {
      if t.Global? {
        globals := globals[key := value];
        assert globals == old(globals) + map[key := value];
      } else {
        var v := vars[t.name];
        vars := vars[t.name := v.(attrs := v.attrs[key := value])];
        assert v.attrs[key := value] == v.attrs + map[key := value];
      }
    }

    /** `v[:] = data` */
    method AssignValues(name: string, data: seq<Value>)
      requires name in vars
      modifies this
      ensures Snapshot() == WriteData(old(Snapshot()), name, data)
    {
      vars := vars[name := vars[name].(data := Some(data))];
    }
  }
}
