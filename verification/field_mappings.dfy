/**
 Custom field mappings of an index set and their merge with the mappings of a
 field-type profile. The own mappings of the index set take precedence over the
 profile's; fields only the profile declares are appended after them.
 */
module FieldMappings {
  import opened Wrappers

  /** One explicit field-name-to-type override. */
  datatype CustomFieldMapping = CustomFieldMapping(fieldName: string, fieldType: string)

  /** An ordered collection of overrides, semantically keyed by field name. */
  type CustomFieldMappings = seq<CustomFieldMapping>

  /** The field names a collection of mappings declares. */
  function FieldNames(ms: CustomFieldMappings): (names: set<string>)
    ensures forall m :: m in ms ==> m.fieldName in names
  {
    if |ms| == 0 then {} else {ms[0].fieldName} + FieldNames(ms[1..])
  }

  /** No field name is declared twice. */
  predicate UniqueFieldNames(ms: CustomFieldMappings) {
    forall i, j :: 0 <= i < j < |ms| ==> ms[i].fieldName != ms[j].fieldName
  }

  /** The type a collection declares for field `f`: the first entry naming `f` wins. */
  function TypeOf(ms: CustomFieldMappings, f: string): (t: Option<string>)
    ensures t.None? <==> f !in FieldNames(ms)
    ensures t.Some? ==> CustomFieldMapping(f, t.value) in ms
  {
    if |ms| == 0 then None
    else if ms[0].fieldName == f then Some(ms[0].fieldType)
    else TypeOf(ms[1..], f)
  }

  /** The profile entries whose field name the own mappings do not declare, in profile order. */
  function ProfileOnly(own: CustomFieldMappings, profile: CustomFieldMappings): (extra: CustomFieldMappings)
    ensures |extra| <= |profile|
    ensures forall m :: m in extra <==> m in profile && m.fieldName !in FieldNames(own)
  {
    if |profile| == 0 then []
    else if profile[0].fieldName in FieldNames(own) then ProfileOnly(own, profile[1..])
    else [profile[0]] + ProfileOnly(own, profile[1..])
  }

  /**
   The effective mappings of an index set: its own mappings unchanged and in
   order, followed by the profile-only entries in profile order.
   */
  function Merge(own: CustomFieldMappings, profile: CustomFieldMappings): (merged: CustomFieldMappings)
    ensures |own| <= |merged| <= |own| + |profile|
    ensures merged[..|own|] == own
    ensures forall m :: m in merged[|own|..] <==> m in profile && m.fieldName !in FieldNames(own)
  {
    own + ProfileOnly(own, profile)
  }

  // ---------------------------------------------------------------------------
  // Filter laws of ProfileOnly: it keeps profile order and drops nothing new.

  /** ProfileOnly distributes over concatenation of the profile, so it keeps relative order. */
  lemma {:induction false} ProfileOnlyAppend(own: CustomFieldMappings, a: CustomFieldMappings, b: CustomFieldMappings)
    ensures ProfileOnly(own, a + b) == ProfileOnly(own, a) + ProfileOnly(own, b)
    decreases |a|
  {
    if |a| == 0 {
      assert a + b == b;
    } else {
      assert (a + b)[0] == a[0];
      assert (a + b)[1..] == a[1..] + b;
      ProfileOnlyAppend(own, a[1..], b);
    }
  }

  /** When the profile declares only fields the own mappings lack, nothing is dropped. */
  lemma {:induction false} ProfileOnlyAllNew(own: CustomFieldMappings, profile: CustomFieldMappings)
    requires FieldNames(own) !! FieldNames(profile)
    ensures ProfileOnly(own, profile) == profile
    decreases |profile|
  {
    if |profile| != 0 {
      ProfileOnlyAllNew(own, profile[1..]);
    }
  }

  /** When the own mappings already declare every profile field, the profile adds nothing. */
  lemma {:induction false} ProfileOnlyCovered(own: CustomFieldMappings, profile: CustomFieldMappings)
    requires FieldNames(profile) <= FieldNames(own)
    ensures ProfileOnly(own, profile) == []
    decreases |profile|
  {
    if |profile| != 0 {
      ProfileOnlyCovered(own, profile[1..]);
    }
  }

  // ---------------------------------------------------------------------------
  // Properties of the merge.

  /** An absent, not-found or empty profile leaves the own mappings exactly as they are. */
  lemma MergeEmptyProfile(own: CustomFieldMappings)
    ensures Merge(own, []) == own
  {
  }

  /** TypeOf over a concatenation looks in the left part first. */
  lemma {:induction false} TypeOfAppend(a: CustomFieldMappings, b: CustomFieldMappings, f: string)
    ensures TypeOf(a + b, f) == if f in FieldNames(a) then TypeOf(a, f) else TypeOf(b, f)
    decreases |a|
  {
    if |a| == 0 {
      assert a + b == b;
    } else {
      assert (a + b)[0] == a[0];
      assert (a + b)[1..] == a[1..] + b;
      TypeOfAppend(a[1..], b, f);
    }
  }

  /** Dropping entries for fields other than `f` does not change the type found for `f`. */
  lemma {:induction false} TypeOfProfileOnly(own: CustomFieldMappings, profile: CustomFieldMappings, f: string)
    requires f !in FieldNames(own)
    ensures TypeOf(ProfileOnly(own, profile), f) == TypeOf(profile, f)
    decreases |profile|
  {
    if |profile| != 0 {
      TypeOfProfileOnly(own, profile[1..], f);
      if profile[0].fieldName !in FieldNames(own) {
        var rest := ProfileOnly(own, profile[1..]);
        assert ([profile[0]] + rest)[0] == profile[0];
        assert ([profile[0]] + rest)[1..] == rest;
      }
    }
  }

  /**
   Precedence: for every field name, the merged mappings declare the own type
   when the index set declares the field, and the profile's type otherwise.
   */
  lemma MergePrecedence(own: CustomFieldMappings, profile: CustomFieldMappings, f: string)
    ensures TypeOf(Merge(own, profile), f) ==
              if f in FieldNames(own) then TypeOf(own, f) else TypeOf(profile, f)
  {
    TypeOfAppend(own, ProfileOnly(own, profile), f);
    if f !in FieldNames(own) {
      TypeOfProfileOnly(own, profile, f);
    }
  }

  /** The merged mappings declare exactly the fields of both sources. */
  lemma MergeFieldNames(own: CustomFieldMappings, profile: CustomFieldMappings)
    ensures FieldNames(Merge(own, profile)) == FieldNames(own) + FieldNames(profile)
  {
    var merged := Merge(own, profile);
    forall f | f in FieldNames(own) + FieldNames(profile) ensures f in FieldNames(merged) {
      MergePrecedence(own, profile, f);
    }
    forall f | f in FieldNames(merged) ensures f in FieldNames(own) + FieldNames(profile) {
      MergePrecedence(own, profile, f);
    }
  }

  /** Entries ProfileOnly keeps are pairwise distinct by name when the profile's are. */
  lemma {:induction false} ProfileOnlyUnique(own: CustomFieldMappings, profile: CustomFieldMappings)
    requires UniqueFieldNames(profile)
    ensures UniqueFieldNames(ProfileOnly(own, profile))
    decreases |profile|
  {
    if |profile| != 0 {
      var tail := profile[1..];
      assert UniqueFieldNames(tail) by {
        forall i, j | 0 <= i < j < |tail| ensures tail[i].fieldName != tail[j].fieldName {
          assert tail[i] == profile[i + 1] && tail[j] == profile[j + 1];
        }
      }
      ProfileOnlyUnique(own, tail);
      var rest := ProfileOnly(own, tail);
      if profile[0].fieldName !in FieldNames(own) {
        var r := [profile[0]] + rest;
        forall i, j | 0 <= i < j < |r| ensures r[i].fieldName != r[j].fieldName {
          if i == 0 {
            assert r[j] == rest[j - 1];
            assert rest[j - 1] in tail;
            var k :| 0 <= k < |tail| && tail[k] == rest[j - 1];
            assert profile[k + 1] == tail[k];
          } else {
            assert r[i] == rest[i - 1] && r[j] == rest[j - 1];
          }
        }
      }
    }
  }

  /**
   The merge keeps the mappings keyed by field name: when each source declares
   every field at most once, so does the result.
   */
  lemma MergeKeepsUniqueFieldNames(own: CustomFieldMappings, profile: CustomFieldMappings)
    requires UniqueFieldNames(own) && UniqueFieldNames(profile)
    ensures UniqueFieldNames(Merge(own, profile))
  {
    ProfileOnlyUnique(own, profile);
    var extra := ProfileOnly(own, profile);
    var merged := own + extra;
    forall i, j | 0 <= i < j < |merged| ensures merged[i].fieldName != merged[j].fieldName {
      if j >= |own| {
        if i < |own| {
          assert merged[j] == extra[j - |own|];
          assert extra[j - |own|] in extra;
          assert merged[i].fieldName in FieldNames(own);
        } else {
          assert merged[i] == extra[i - |own|] && merged[j] == extra[j - |own|];
        }
      }
    }
  }

  /** Merging the same profile twice changes nothing more. */
  lemma MergeIdempotent(own: CustomFieldMappings, profile: CustomFieldMappings)
    ensures Merge(Merge(own, profile), profile) == Merge(own, profile)
  {
    MergeFieldNames(own, profile);
    ProfileOnlyCovered(Merge(own, profile), profile);
  }

  /** The merge example the template tests assert. */
  lemma MergeExample()
    ensures Merge([CustomFieldMapping("f1", "string"), CustomFieldMapping("f2", "long")],
                  [CustomFieldMapping("f1", "ip"), CustomFieldMapping("f3", "ip")])
         == [CustomFieldMapping("f1", "string"), CustomFieldMapping("f2", "long"), CustomFieldMapping("f3", "ip")]
  {
  }

  // ---------------------------------------------------------------------------
  // An imperative rendering of the merge: the own field names are collected
  // once, and the profile entries are filtered against them.

  /** The field names of a concatenation are those of both parts. */
  lemma {:induction false} FieldNamesAppend(a: CustomFieldMappings, b: CustomFieldMappings)
    ensures FieldNames(a + b) == FieldNames(a) + FieldNames(b)
    decreases |a|
  {
    if |a| == 0 {
      assert a + b == b;
    } else {
      assert (a + b)[0] == a[0];
      assert (a + b)[1..] == a[1..] + b;
      FieldNamesAppend(a[1..], b);
    }
  }

  /** Extending the profile by one entry extends the profile-only part by that entry when its field is new. */
  lemma ProfileOnlySnoc(own: CustomFieldMappings, profile: CustomFieldMappings, x: CustomFieldMapping)
    ensures ProfileOnly(own, profile + [x])
         == ProfileOnly(own, profile) + if x.fieldName in FieldNames(own) then [] else [x]
  {
    ProfileOnlyAppend(own, profile, [x]);
    assert [x][1..] == [];
  }

  /** Collects the field names of the own mappings, the keys seen before any profile entry. */
  method SeenFieldNames(own: CustomFieldMappings) returns (seen: set<string>)
    ensures seen == FieldNames(own)
  {
    seen := {};
    var i := 0;
    while i < |own|
      invariant 0 <= i <= |own|
      invariant seen == FieldNames(own[..i])
    {
      assert own[..i + 1] == own[..i] + [own[i]];
      FieldNamesAppend(own[..i], [own[i]]);
      seen := seen + {own[i].fieldName};
      i := i + 1;
    }
    assert own[..|own|] == own;
  }

  /**
   The merge in one loop: all own entries first, then each profile entry
   filtered against the set of own field names.
   */
  method MergeInsertionOrdered(own: CustomFieldMappings, profile: CustomFieldMappings)
    returns (merged: CustomFieldMappings)
    ensures merged == Merge(own, profile)
  {
    var seen := SeenFieldNames(own);
    var extra: CustomFieldMappings := [];
    var j := 0;
    while j < |profile|
      invariant 0 <= j <= |profile|
      invariant extra == ProfileOnly(own, profile[..j])
    {
      var x := profile[j];
      assert profile[..j + 1] == profile[..j] + [x];
      ProfileOnlySnoc(own, profile[..j], x);
      if x.fieldName !in seen {
        extra := extra + [x];
      }
      j := j + 1;
    }
    assert profile[..|profile|] == profile;
    merged := own + extra;
  }
}
