/**
 The names that a shortened object gives of its omitted fields: paths of fields
 that are missing, and all of them as long as no list of names was given up.
 */
module OmittedNames {
  import opened ObservationView

  /** Objects do not repeat a key, at any depth. */
  ghost predicate UniqueKeys(fields: seq<Field>)
    decreases Obj(fields)
  {
    && (forall i, j :: 0 <= i < j < |fields| ==> fields[i].key != fields[j].key)
    && (forall i :: 0 <= i < |fields| && fields[i].value.Obj? ==> UniqueKeys(fields[i].value.fields))
  }

  /** The paths of the fields that are not among those shown, and of what is missing in a field shown in part. */
  function Missing(shown: seq<Field>, fields: seq<Field>): seq<string>
    decreases fields
  {
    if fields == [] then []
    else
      var n, k := |fields| - 1, |shown| - 1;
      if shown != [] && shown[k].key == fields[n].key then Missing(shown[..k], fields[..n]) + MissingIn(shown[k], fields[n])
      else Missing(shown, fields[..n]) + [fields[n].key]
  }

  function MissingIn(f: Field, g: Field): seq<string>
    decreases g
  {
    if f.value.Obj? && g.value.Obj? && f.value != g.value then Prefixed(g.key, Missing(f.value.fields, g.value.fields)) else []
  }

  lemma {:induction false} MissingShown(shown: seq<Field>, fields: seq<Field>, f: Field, g: Field)
    requires f.key == g.key
    ensures Missing(shown + [f], fields + [g]) == Missing(shown, fields) + MissingIn(f, g)
  {
    assert (shown + [f])[..|shown|] == shown && (fields + [g])[..|fields|] == fields;
  }

  lemma {:induction false} MissingOmitted(shown: seq<Field>, fields: seq<Field>, g: Field)
    requires forall i :: 0 <= i < |shown| ==> shown[i].key != g.key
    ensures Missing(shown, fields + [g]) == Missing(shown, fields) + [g.key]
  {
    assert (fields + [g])[..|fields|] == fields;
  }

  lemma {:induction false} ShownKeys(shown: seq<Field>, fields: seq<Field>, key: string)
    requires Shows(shown, fields) && forall i :: 0 <= i < |fields| ==> fields[i].key != key
    ensures forall i :: 0 <= i < |shown| ==> shown[i].key != key
  {
    if shown != [] {
      if Shows(shown, fields[1..]) { ShownKeys(shown, fields[1..], key); } else { ShownKeys(shown[1..], fields[1..], key); }
    }
  }

  /** No list of names was given up: not of this object, and not of one that is shown in part. */
  ghost predicate Untrimmed(v: View, fields: seq<Field>, bound: int)
    decreases Obj(fields), 1
  {
    && !TooLong(v, AfterFields(v, fields, |fields|, bound), bound)
    && (forall i :: 0 <= i < |fields| ==> FieldUntrimmed(v, fields[i], AfterFields(v, fields, i, bound), bound))
  }

  ghost predicate FieldUntrimmed(v: View, f: Field, p: Picked, bound: int)
    decreases f, 0
  {
    ShownInPart(v, f, p, bound) ==> Untrimmed(NESTED, f.value.fields, NestedBudget(v, p, f.key, bound))
  }

  /** The field is an object that does not fit whole but in part. */
  predicate ShownInPart(v: View, f: Field, p: Picked, bound: int) {
    && f.value.Obj? && TooLong(v, WithField(p, f, [], 0), bound) && NestedBudget(v, p, f.key, bound) > 0
    && Usable(FitObject(NESTED, f.value.fields, NestedBudget(v, p, f.key, bound)), NestedBudget(v, p, f.key, bound))
  }

  /** The names are paths of missing fields; if nothing was given up they are all of them, in order, and as many
      as are counted. */
  ghost predicate Named(fields: seq<Field>, p: Picked, all: bool) {
    && (forall name :: name in p.omitted ==> name in Missing(p.shown, fields))
    && (all ==> p.omitted == Missing(p.shown, fields) && |p.omitted| == p.count)
  }

  lemma {:induction false} NamedShown(fields: seq<Field>, p: Picked, all: bool, g: Field, f: Field, names: seq<string>, count: nat)
    requires Named(fields, p, all) && f.key == g.key
    requires forall name :: name in names ==> name in MissingIn(f, g)
    requires all ==> names == MissingIn(f, g) && |names| == count
    ensures Named(fields + [g], WithField(p, f, names, count), all)
  {
    MissingShown(p.shown, fields, f, g);
    hide Missing, MissingIn;
  }

  lemma {:induction false} NamedOmitted(fields: seq<Field>, p: Picked, all: bool, g: Field)
    requires Named(fields, p, all) && Shows(p.shown, fields) && forall i :: 0 <= i < |fields| ==> fields[i].key != g.key
    ensures Named(fields + [g], WithoutField(p, g.key), all)
  {
    ShownKeys(p.shown, fields, g.key);
    MissingOmitted(p.shown, fields, g);
    hide Missing, Shows;
  }

  /** The names of a nested object, with its key in front. */
  lemma NestedNamed(fields: seq<Field>, nested: Picked, all: bool, key: string)
    requires Named(fields, nested, all) && PickedFrom(NESTED, fields, nested)
    ensures var names, missing := Prefixed(key, nested.omitted), MissingIn(Field(key, Obj(nested.shown)), Field(key, Obj(fields)));
            (forall name :: name in names ==> name in missing) && (all ==> names == missing && |names| == nested.count)
  {
    hide Missing, Shows, Size;
    var missing := Missing(nested.shown, fields);
    if nested.shown != fields {
      forall name | name in Prefixed(key, nested.omitted) ensures name in Prefixed(key, missing) {
        var i :| 0 <= i < |nested.omitted| && Prefixed(key, nested.omitted)[i] == name;
        assert nested.omitted[i] in missing;
        var j :| 0 <= j < |missing| && missing[j] == nested.omitted[i];
        assert Prefixed(key, missing)[j] == name;
      }
    }
  }

  lemma {:induction false} FieldIsNamed(v: View, fields: seq<Field>, p: Picked, f: Field, bound: int, all: bool)
    requires Named(fields, p, all) && Shows(p.shown, fields) && (forall i :: 0 <= i < |fields| ==> fields[i].key != f.key)
    requires (f.value.Obj? ==> UniqueKeys(f.value.fields)) && (all ==> FieldUntrimmed(v, f, p, bound))
    ensures Named(fields + [f], AfterField(v, f, p, bound), all)
    decreases f, 0
  {
    var budget := NestedBudget(v, p, f.key, bound);
    NamedShown(fields, p, all, f, f, [], 0);
    NamedOmitted(fields, p, all, f);
    if ShownInPart(v, f, p, bound) {
      var nested := FitObject(NESTED, f.value.fields, budget);
      ObjectIsNamed(NESTED, f.value.fields, budget, all);
      ObjectIsPicked(NESTED, f.value.fields, budget);
      NestedNamed(f.value.fields, nested, all, f.key);
      NamedShown(fields, p, all, f, Field(f.key, Obj(nested.shown)), Prefixed(f.key, nested.omitted), nested.count);
    }
    hide Named, FitObject, NestedBudget, MissingIn, Untrimmed, UniqueKeys, Shows;
  }

  lemma {:induction false} FieldsAreNamed(v: View, fields: seq<Field>, n: nat, bound: int, all: bool)
    requires n <= |fields| && v.omittedFields == [] && v.omittedCount == 0 && UniqueKeys(fields)
    requires all ==> forall i :: 0 <= i < |fields| ==> FieldUntrimmed(v, fields[i], AfterFields(v, fields, i, bound), bound)
    ensures Named(fields[..n], AfterFields(v, fields, n, bound), all)
    decreases Obj(fields), 0, n
  {
    hide *;
    AfterFieldsNext(v, fields, n, bound);
    if n == 0 {
      NothingNamed(all);
      assert fields[..0] == [];
    } else {
      FieldsAreNamed(v, fields, n - 1, bound, all);
      FieldsArePicked(v, fields, n - 1, bound);
      PickedShows(v, fields[..n - 1], AfterFields(v, fields, n - 1, bound));
      KeyIsNew(fields, n - 1);
      FieldIsNamed(v, fields[..n - 1], AfterFields(v, fields, n - 1, bound), fields[n - 1], bound, all);
      assert fields[..n] == fields[..n - 1] + [fields[n - 1]];
    }
  }

  lemma NothingNamed(all: bool)
    ensures Named([], Picked([], [], 0), all)
  {
  }

  lemma {:induction false} PickedShows(v: View, fields: seq<Field>, p: Picked)
    requires PickedFrom(v, fields, p)
    ensures Shows(p.shown, fields)
  {
  }

  lemma {:induction false} KeyIsNew(fields: seq<Field>, n: nat)
    requires UniqueKeys(fields) && n < |fields|
    ensures forall i :: 0 <= i < |fields[..n]| ==> fields[..n][i].key != fields[n].key
    ensures fields[n].value.Obj? ==> UniqueKeys(fields[n].value.fields)
  {
  }

  /** Whatever an object and its bound, each name that its view gives is the path of a missing field. If no list of
      names was given up the names are all of these paths in order, as many as the view counts. */
  lemma {:induction false} ObjectIsNamed(v: View, fields: seq<Field>, bound: int, all: bool)
    requires v.omittedFields == [] && v.omittedCount == 0 && UniqueKeys(fields) && (all ==> Untrimmed(v, fields, bound))
    ensures Named(fields, FitObject(v, fields, bound), all)
    decreases Obj(fields), 1
  {
    FieldsAreNamed(v, fields, |fields|, bound, all);
    assert fields[..|fields|] == fields;
    hide AfterFields, Missing, UniqueKeys, FieldUntrimmed;
    var p := AfterFields(v, fields, |fields|, bound);
    if TooLong(v, p, bound) {
      ShrunkNames(v, p.(omitted := []), bound);
    } else {
      assert FitObject(v, fields, bound) == p;
    }
  }

  lemma {:induction false} ShrunkNames(v: View, p: Picked, bound: int)
    ensures Shrunk(v, p, bound).omitted == p.omitted
    decreases |p.shown|
  {
    hide TooLong, LargestAt;
    if p.shown != [] && TooLong(v, p, bound) { ShrunkNames(v, Smaller(p), bound); }
  }
}
