/**
 * The runtime values the mapper handles: parsed JSON (JavaScript `undefined` kept
 * apart from `null`) and native instances of classes. Numbers are opaque integers:
 * the mapper only passes them through.
 */
module Values {
  import opened Errors
  import opened Assoc

  type Props = seq<Entry<string, Value>>

  datatype Value =
    | Undefined
    | Null
    | Str(s: string)
    | Num(n: int)
    | Bool(b: bool)
    | Arr(elems: seq<Value>)
    | Obj(props: Props)                  // a plain object, e.g. one produced by JSON.parse
    | Inst(cls: string, fields: Props)   // an instance of class `cls` (`instance.constructor`)

  predicate Nullish(v: Value) {
    v.Undefined? || v.Null?
  }

  /** The result of JavaScript's `typeof`, for the values above. */
  datatype JsType = UndefinedT | ObjectT | StringT | NumberT | BooleanT

  function TypeOf(v: Value): (t: JsType)
    ensures t == ObjectT <==> v.Null? || v.Arr? || v.Obj? || v.Inst?
  {
    match v
    case Undefined => UndefinedT
    case Str(_) => StringT
    case Num(_) => NumberT
    case Bool(_) => BooleanT
    case _ => ObjectT
  }

  /** A well-founded size: `undefined` is the smallest value of all. */
  ghost function Size(v: Value): nat {
    match v
    case Undefined => 0
    case Arr(es) => 1 + SizeSeq(es)
    case Obj(ps) => 1 + SizeProps(v, ps)
    case Inst(_, ps) => 1 + SizeProps(v, ps)
    case _ => 1
  }

  ghost function SizeSeq(es: seq<Value>): nat {
    if es == [] then 0 else Size(es[0]) + SizeSeq(es[1..])
  }

  /** The sizes of the values in `ps`, all of which lie inside `owner`. */
  ghost function SizeProps(owner: Value, ps: Props): nat
    requires forall i :: 0 <= i < |ps| ==> ps[i].val < owner
    decreases owner, |ps|
  {
    if ps == [] then 0 else Size(ps[0].val) + SizeProps(owner, ps[1..])
  }

  /** `o[k]` on an own-property table: `undefined` when the key is absent. */
  function Field(ps: Props, k: string): (r: Value)
    ensures r == Get(ps, k).GetOr(Undefined)
  {
    if ps == [] then Undefined
    else if ps[0].key == k then ps[0].val
    else Field(ps[1..], k)
  }

  lemma {:induction false} FieldSize(owner: Value, ps: Props, k: string)
    requires forall i :: 0 <= i < |ps| ==> ps[i].val < owner
    ensures Size(Field(ps, k)) <= SizeProps(owner, ps)
  {
    if ps != [] && ps[0].key != k {
      FieldSize(owner, ps[1..], k);
    }
  }

  lemma {:induction false} ElementSize(es: seq<Value>, i: nat)
    requires i < |es|
    ensures Size(es[i]) <= SizeSeq(es)
  {
    if i > 0 {
      ElementSize(es[1..], i - 1);
    }
  }

  /** `inst[k]` on an instance, with the size fact recursion over nested instances descends on. */
  ghost function FieldOf(inst: Value, k: string): (r: Value)
    requires inst.Inst?
    ensures r == Field(inst.fields, k) && Size(r) < Size(inst)
  {
    FieldSize(inst, inst.fields, k);
    Field(inst.fields, k)
  }

  /** `a[i]` on an array, likewise. */
  ghost function ElementOf(a: Value, i: nat): (r: Value)
    requires a.Arr? && i < |a.elems|
    ensures r == a.elems[i] && Size(r) < Size(a)
  {
    ElementSize(a.elems, i);
    a.elems[i]
  }

  /**
   * Property access `v[k]` as the engine performs it on a JSON value:
   * a TypeError on null and undefined, the own property on objects,
   * `undefined` on every other primitive and on arrays.
   */
  function Member(v: Value, k: string): (r: Result<Value>)
    ensures r.Err? <==> Nullish(v)
    ensures r.Ok? ==> Size(r.value) < Size(v)
  {
    match v
    case Undefined => Err(RuntimeTypeError)
    case Null => Err(RuntimeTypeError)
    case Obj(ps) => FieldSize(v, ps, k); Ok(Field(ps, k))
    case Inst(_, ps) => FieldSize(v, ps, k); Ok(Field(ps, k))
    case _ => Ok(Undefined)
  }

  /** The entries whose value is not `undefined`, in their original order. */
  function DropUndefined(ps: Props): (r: Props)
    ensures forall i :: 0 <= i < |r| ==> r[i] in ps && !r[i].val.Undefined?
    ensures forall i :: 0 <= i < |ps| && !ps[i].val.Undefined? ==> ps[i] in r
  {
    if ps == [] then []
    else if ps[0].val.Undefined? then DropUndefined(ps[1..])
    else [ps[0]] + DropUndefined(ps[1..])
  }

  /** The entries of `ps` except those whose key is in `ks` and whose value is `undefined`. */
  function DropUndefinedAmong(ps: Props, ks: seq<string>): Props {
    if ps == [] then []
    else if ps[0].key in ks && ps[0].val.Undefined? then DropUndefinedAmong(ps[1..], ks)
    else [ps[0]] + DropUndefinedAmong(ps[1..], ks)
  }

  /** Filtering by a set of keys that covers every key of `ps` is filtering by value alone. */
  lemma {:induction false} DropAmongCoveringKeys(ps: Props, ks: seq<string>)
    requires forall i :: 0 <= i < |ps| ==> ps[i].key in ks
    ensures DropUndefinedAmong(ps, ks) == DropUndefined(ps)
  {
    if ps != [] {
      DropAmongCoveringKeys(ps[1..], ks);
    }
  }

  /** Filtering by one more key `k` that is not yet among `ks` removes the entry of `k` exactly when its value is `undefined`. */
  lemma {:induction false} DropAmongOneMore(ps: Props, ks: seq<string>, k: string)
    requires Distinct(Keys(ps))
    requires k !in ks
    ensures Field(DropUndefinedAmong(ps, ks), k) == Field(ps, k)
    ensures DropUndefinedAmong(ps, ks + [k]) ==
      if Field(ps, k).Undefined? then Remove(DropUndefinedAmong(ps, ks), k) else DropUndefinedAmong(ps, ks)
  {
    if ps != [] {
      var e, rest := ps[0], ps[1..];
      assert Keys(ps) == [e.key] + Keys(rest);
      assert Distinct(Keys(rest)) by {
        forall i, j | 0 <= i < j < |Keys(rest)| ensures Keys(rest)[i] != Keys(rest)[j] {
          assert Keys(rest)[i] == Keys(ps)[i + 1] && Keys(rest)[j] == Keys(ps)[j + 1];
        }
      }
      var tail := DropUndefinedAmong(rest, ks);
      if e.key == k {
        assert k !in Keys(rest) by {
          forall i | 0 <= i < |Keys(rest)| ensures Keys(rest)[i] != k {
            assert Keys(rest)[i] == Keys(ps)[i + 1];
          }
        }
        NotAmongKeys(rest, ks, k);
        assert DropUndefinedAmong(ps, ks) == [e] + tail;
      } else {
        DropAmongOneMore(rest, ks, k);
        var head := DropUndefinedAmong(ps, ks);
        if !(e.val.Undefined? && e.key in ks) {
          assert head == [e] + tail;
          assert head[0] == e && head[1..] == tail;
        }
      }
    }
  }

  /** A key `ps` does not hold changes neither the filter nor the removal. */
  lemma {:induction false} NotAmongKeys(ps: Props, ks: seq<string>, k: string)
    requires k !in Keys(ps)
    ensures DropUndefinedAmong(ps, ks + [k]) == DropUndefinedAmong(ps, ks)
    ensures Remove(DropUndefinedAmong(ps, ks), k) == DropUndefinedAmong(ps, ks)
    ensures Field(DropUndefinedAmong(ps, ks), k) == Undefined
  {
    if ps != [] {
      assert Keys(ps) == [ps[0].key] + Keys(ps[1..]);
      NotAmongKeys(ps[1..], ks, k);
      var head := DropUndefinedAmong(ps, ks);
      if !(ps[0].val.Undefined? && ps[0].key in ks) {
        assert head == [ps[0]] + DropUndefinedAmong(ps[1..], ks);
        assert head[0] == ps[0] && head[1..] == DropUndefinedAmong(ps[1..], ks);
      }
    }
  }

  /** With no keys to look at, nothing is filtered. */
  lemma {:induction false} DropAmongNoKeys(ps: Props)
    ensures DropUndefinedAmong(ps, []) == ps
  {
    if ps != [] {
      DropAmongNoKeys(ps[1..]);
    }
  }

  /** With distinct keys, dropping `undefined` entries changes no read, and a key survives exactly when its value is defined. */
  lemma {:induction false} DropUndefinedReads(ps: Props, k: string)
    requires Distinct(Keys(ps))
    ensures Field(DropUndefined(ps), k) == Field(ps, k)
    ensures k in Keys(DropUndefined(ps)) <==> !Field(ps, k).Undefined?
  {
    if ps != [] {
      var rest := ps[1..];
      assert Keys(ps) == [ps[0].key] + Keys(rest);
      assert Distinct(Keys(rest)) by {
        forall i, j | 0 <= i < j < |Keys(rest)| ensures Keys(rest)[i] != Keys(rest)[j] {
          assert Keys(rest)[i] == Keys(ps)[i + 1] && Keys(rest)[j] == Keys(ps)[j + 1];
        }
      }
      DropUndefinedReads(rest, k);
      if ps[0].key == k {
        assert k !in Keys(rest) by {
          forall i | 0 <= i < |Keys(rest)| ensures Keys(rest)[i] != k {
            assert Keys(rest)[i] == Keys(ps)[i + 1];
          }
        }
      }
      if !ps[0].val.Undefined? {
        var r := DropUndefined(ps);
        assert r == [ps[0]] + DropUndefined(rest);
        assert r[0] == ps[0] && r[1..] == DropUndefined(rest);
        assert Keys(r) == [ps[0].key] + Keys(DropUndefined(rest));
      }
    }
  }
}
