/**
 * routes/users_routes.py: the public profile lookup and the builder of the
 * profile UPDATE statement. The database is a parameter: the row the lookup
 * found (if any) and the reviews it returned.
 */
module UsersRoutes {
  import opened Wrappers
  import opened StringUtil
  import opened SqlParams

  /** The columns a user may change, in the order the statement lists them. */
  const AllowedFields: seq<string> := ["first_name", "last_name", "phone_number", "bio", "location", "city", "country"]

  /** No value occurs twice. */
  predicate Distinct(fields: seq<string>) {
    forall i, j :: 0 <= i < j < |fields| ==> fields[i] != fields[j]
  }

  /** The position of the first occurrence of `f`. */
  function IndexOf(fields: seq<string>, f: string): (i: nat)
    requires f in fields
    ensures i < |fields| && fields[i] == f && f !in fields[..i]
  {
    if fields[0] == f then 0 else 1 + IndexOf(fields[1..], f)
  }

  /** A first occurrence is unique: any position holding `f` with no `f` before it is `IndexOf`. */
  lemma IndexOfUnique(fields: seq<string>, f: string, i: nat)
    requires i < |fields| && fields[i] == f && f !in fields[..i]
    ensures IndexOf(fields, f) == i
  {
  }

  /** The allowed fields present in the body, in `fields` order: every chosen
      field comes after the ones chosen before it, so none repeats. */
  function Chosen(data: map<string, Json>, fields: seq<string>): (r: seq<string>)
    ensures |r| <= |fields|
    ensures forall f :: f in r <==> f in fields && f in data
    ensures Distinct(fields) ==> forall a, b :: 0 <= a < b < |r| ==> IndexOf(fields, r[a]) < IndexOf(fields, r[b])
  {
    if fields == [] then []
    else
      var init, last := fields[..|fields| - 1], fields[|fields| - 1];
      assert fields == init + [last];
      var before := Chosen(data, init);
      var r := before + (if last in data then [last] else []);
      assert Distinct(fields) ==> forall a, b :: 0 <= a < b < |r| ==> IndexOf(fields, r[a]) < IndexOf(fields, r[b]) by {
        if Distinct(fields) {
          assert Distinct(init);
          forall f | f in init
            ensures IndexOf(fields, f) == IndexOf(init, f)
          {
            var k := IndexOf(init, f);
            assert fields[..k] == init[..k];
            IndexOfUnique(fields, f, k);
          }
          if last in data {
            assert last !in init;
            assert fields[..|fields| - 1] == init;
            IndexOfUnique(fields, last, |fields| - 1);
          }
        }
      }
      r
  }

  /** The allowed fields are pairwise different, so `Chosen` keeps their order without repeats. */
  lemma AllowedFieldsDistinct()
    ensures Distinct(AllowedFields)
  {
  }

  /** `f"{field} = %s"` for each chosen field. */
  function SetClauses(fields: seq<string>): (r: seq<string>)
    ensures |r| == |fields| && forall i :: 0 <= i < |fields| ==> r[i] == fields[i] + " = " + Placeholder
  {
    seq(|fields|, i requires 0 <= i < |fields| => fields[i] + " = " + Placeholder)
  }

  /** The body's values for the chosen fields, in the same order. */
  function Values(data: map<string, Json>, fields: seq<string>): (r: seq<Json>)
    requires forall f :: f in fields ==> f in data
    ensures |r| == |fields| && forall i :: 0 <= i < |fields| ==> r[i] == data[fields[i]]
  {
    seq(|fields|, i requires 0 <= i < |fields| && fields[i] in data => data[fields[i]])
  }

  /** What `update_profile` does: refuse a body with no allowed field (400), or
      run the statement with its parameters. */
  datatype ProfileUpdate = NoFieldsToUpdate | RunUpdate(query: string, params: seq<Json>)

  const UpdateHead: string := "UPDATE users SET "
  const WhereId: string := " WHERE id = "

  /** The statement and parameters for the chosen fields. */
  function UpdateFor(userId: int, data: map<string, Json>): ProfileUpdate {
    var chosen := Chosen(data, AllowedFields);
    if chosen == [] then NoFieldsToUpdate
    else RunUpdate(UpdateHead + Join(", ", SetClauses(chosen)) + WhereId + Placeholder,
                   Values(data, chosen) + [JInt(userId)])
  }

  /** `update_profile`: walk the allowed fields in order, collect the SET
      clauses and values of those present, append the user id. */
  method UpdateProfile(userId: int, data: map<string, Json>) returns (outcome: ProfileUpdate)
    ensures outcome == UpdateFor(userId, data)
  {
    var updateFields, params := CollectFields(data, AllowedFields);
    if updateFields == [] {
      return NoFieldsToUpdate;
    }
    params := params + [JInt(userId)];
    var query := UpdateHead + Join(", ", updateFields) + WhereId + Placeholder;
    return RunUpdate(query, params);
  }

  /** The loop of `update_profile`: one clause and one value per field of
      `fields` that the body carries. */
  method CollectFields(data: map<string, Json>, fields: seq<string>) returns (clauses: seq<string>, values: seq<Json>)
    ensures clauses == SetClauses(Chosen(data, fields))
    ensures values == Values(data, Chosen(data, fields))
  {
    clauses, values := [], [];
    for i := 0 to |fields|
      invariant clauses == SetClauses(Chosen(data, fields[..i]))
      invariant values == Values(data, Chosen(data, fields[..i]))
    {
      var field := fields[i];
      ChosenStep(data, fields, i);
      ghost var before := Chosen(data, fields[..i]);
      if field in data {
        clauses := clauses + [field + " = " + Placeholder];
        values := values + [data[field]];
        SnocStep(data, before, field);
      }
    }
    assert fields[..|fields|] == fields;
  }

  /** One more chosen field adds its clause and its value at the end. */
  lemma SnocStep(data: map<string, Json>, chosen: seq<string>, field: string)
    requires forall f :: f in chosen ==> f in data
    requires field in data
    ensures SetClauses(chosen + [field]) == SetClauses(chosen) + [field + " = " + Placeholder]
    ensures Values(data, chosen + [field]) == Values(data, chosen) + [data[field]]
  {
  }

  /** Chosen over one more field. */
  lemma ChosenStep(data: map<string, Json>, fields: seq<string>, i: nat)
    requires i < |fields|
    ensures Chosen(data, fields[..i + 1]) == Chosen(data, fields[..i]) + (if fields[i] in data then [fields[i]] else [])
  {
    assert fields[..i + 1][..i] == fields[..i];
  }

  /** No allowed field means no statement; otherwise only allowed fields that
      the body carries are set, each with the body's value, and the user id is
      the last parameter. */
  lemma UpdateUsesOnlyAllowedFields(userId: int, data: map<string, Json>)
    ensures UpdateFor(userId, data) == NoFieldsToUpdate <==> forall f :: f in AllowedFields ==> f !in data
    ensures UpdateFor(userId, data).RunUpdate? ==>
      var params := UpdateFor(userId, data).params;
      |params| >= 2 && params[|params| - 1] == JInt(userId)
      && forall i :: 0 <= i < |params| - 1 ==> exists f :: f in AllowedFields && f in data && params[i] == data[f]
  {
    var chosen := Chosen(data, AllowedFields);
    if chosen == [] {
      forall f | f in AllowedFields ensures f !in data {
        assert f !in chosen;
      }
    } else {
      assert chosen[0] in chosen;
      var params := Values(data, chosen) + [JInt(userId)];
      assert UpdateFor(userId, data).params == params;
      assert params[|params| - 1] == JInt(userId);
      forall i | 0 <= i < |params| - 1 ensures exists f :: f in AllowedFields && f in data && params[i] == data[f] {
        assert chosen[i] in chosen;
      }
    }
  }

  /** The statement has exactly one placeholder per parameter. */
  lemma UpdatePlaceholdersMatchParams(userId: int, data: map<string, Json>)
    requires UpdateFor(userId, data).RunUpdate?
    ensures Placeholders(UpdateFor(userId, data).query) == |UpdateFor(userId, data).params|
  {
    var chosen := Chosen(data, AllowedFields);
    var clauses := SetClauses(chosen);
    AllowedFieldsPlain(chosen);
    JoinPlaceholders(clauses, chosen);
    var joined := Join(", ", clauses);
    var tail := WhereId + Placeholder;
    UpdateTextPlain();
    NoPercentNoPlaceholder(UpdateHead);
    OnePlaceholder(WhereId);
    PlaceholdersAppend(UpdateHead, joined);
    assert tail[0] == ' ';
    PlaceholdersAppend(UpdateHead + joined, tail);
    assert UpdateFor(userId, data).query == UpdateHead + joined + tail;
    assert |UpdateFor(userId, data).params| == |clauses| + 1;
  }

  lemma UpdateTextPlain()
    ensures '%' !in UpdateHead && '%' !in WhereId
  {
  }

  /** No allowed field name holds a '%'. */
  lemma AllowedFieldsPlain(chosen: seq<string>)
    requires forall f :: f in chosen ==> f in AllowedFields
    ensures forall f :: f in chosen ==> '%' !in f
  {
    forall f | f in chosen ensures '%' !in f {
      assert f == AllowedFields[0] || f == AllowedFields[1] || f == AllowedFields[2] || f == AllowedFields[3]
        || f == AllowedFields[4] || f == AllowedFields[5] || f == AllowedFields[6];
    }
  }

  /** Joining `field = %s` clauses with ", " keeps one placeholder per clause;
      the joined text ends with 's' unless it is empty. */
  lemma {:induction false} JoinPlaceholders(clauses: seq<string>, fields: seq<string>)
    requires clauses == SetClauses(fields) && forall f :: f in fields ==> '%' !in f
    ensures Placeholders(Join(", ", clauses)) == |clauses|
    ensures Join(", ", clauses) != [] ==> Join(", ", clauses)[|Join(", ", clauses)| - 1] == 's'
    ensures clauses != [] ==> Join(", ", clauses) != []
  {
    if clauses == [] {
    } else {
      assert fields[0] in fields;
      var first := fields[0] + " = ";
      assert '%' !in first;
      OnePlaceholder(first);
      assert clauses[0] == first + Placeholder;
      if |clauses| > 1 {
        JoinPlaceholders(clauses[1..], fields[1..]);
        var rest := Join(", ", clauses[1..]);
        NoPercentNoPlaceholder(", ");
        PlaceholdersAppend(clauses[0], ", ");
        PlaceholdersAppend(clauses[0] + ", ", rest);
        assert Join(", ", clauses) == clauses[0] + ", " + rest;
      }
    }
  }

  /** What `get_user_profile` answers. */
  datatype ProfileResult = UserNotFound | UserProfile(user: map<string, Json>, reviews: seq<map<string, Json>>)

  /** `get_user_profile`: 404 without an active user row; otherwise the row
      with its reviews attached under "reviews". */
  function GetUserProfile(row: Option<map<string, Json>>, reviews: seq<map<string, Json>>): (r: ProfileResult)
    ensures r == UserNotFound <==> row.None?
    ensures r.UserProfile? ==> r.user == row.value && r.reviews == reviews
  {
    if row.None? then UserNotFound else UserProfile(row.value, reviews)
  }
}
