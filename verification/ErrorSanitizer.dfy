/** What is let through of an upstream error (backend/app/integrations/a2a_error_contract.py). */
module ErrorSanitizer {

  /** A decoded value: None, a scalar, a list, a mapping with its entries in order, or an object of another type. */
  datatype Value = Null | Scalar(text: string) | List(items: seq<Value>) | Mapping(fields: seq<Field>) | Opaque
  datatype Field = Field(key: string, value: Value)

  const SAFE_KEYS: set<string> := {
    "@type", "description", "domain", "type", "metadata", "fieldViolations", "field", "fields", "param", "params",
    "name", "names", "missing", "missing_fields", "missing_params", "missingParams", "reason", "required",
    "required_fields", "hint", "details"
  }

  predicate IsSafe(key: string) {
    key in SAFE_KEYS
  }

  function Present(items: seq<Value>): seq<Value> {
    if items == [] then []
    else if items[0].Null? then Present(items[1..])
    else [items[0]] + Present(items[1..])
  }

  function PresentFields(fields: seq<Field>): seq<Field> {
    if fields == [] then []
    else if fields[0].value.Null? then PresentFields(fields[1..])
    else [fields[0]] + PresentFields(fields[1..])
  }

  function OrNull(items: seq<Value>): Value {
    if items == [] then Null else List(items)
  }

  function OrNullFields(fields: seq<Field>): Value {
    if fields == [] then Null else Mapping(fields)
  }

  function SanitizedItems(items: seq<Value>, depth: nat): (r: seq<Value>)
    ensures |r| == |items|
    ensures forall i :: 0 <= i < |r| ==> r[i] == Sanitize(items[i], depth)
    decreases items
  {
    seq(|items|, i requires 0 <= i < |items| => Sanitize(items[i], depth))
  }

  function SanitizedFields(fields: seq<Field>, depth: nat): (r: seq<Field>)
    ensures |r| == |fields|
    ensures forall i :: 0 <= i < |r| ==>
      r[i] == Field(fields[i].key, if IsSafe(fields[i].key) then Sanitize(fields[i].value, depth) else Null)
    decreases fields
  {
    seq(|fields|, i requires 0 <= i < |fields| =>
      Field(fields[i].key, if IsSafe(fields[i].key) then Sanitize(fields[i].value, depth) else Null))
  }

  const MAX_DEPTH := 4

  /** A scalar stays; a container loses what is not safe, not present or too deep, and goes when it is empty. */
  function Sanitize(value: Value, depth: nat): Value
    decreases value
  {
    match value
    case Null => Null
    case Scalar(_) => value
    case Opaque => Null
    case List(items) => if depth >= MAX_DEPTH then Null else OrNull(Present(SanitizedItems(items, depth + 1)))
    case Mapping(fields) =>
      if depth >= MAX_DEPTH then Null else OrNullFields(PresentFields(SanitizedFields(fields, depth + 1)))
  }

  // ---------------------------------------------------------------- what comes out

  /** Safe keys only, no container below the depth limit, no empty container, nothing absent inside a container. */
  predicate Clean(value: Value, depth: nat)
    decreases value
  {
    match value
    case Null => true
    case Scalar(_) => true
    case Opaque => false
    case List(items) =>
      depth < MAX_DEPTH && items != []
      && forall i :: 0 <= i < |items| ==> !items[i].Null? && Clean(items[i], depth + 1)
    case Mapping(fields) =>
      depth < MAX_DEPTH && fields != []
      && forall i :: 0 <= i < |fields| ==>
           IsSafe(fields[i].key) && !fields[i].value.Null? && Clean(fields[i].value, depth + 1)
  }

  /** Safe keys only, nothing absent inside a container, no empty one. */
  predicate Tidy(value: Value)
    decreases value
  {
    match value
    case Null => true
    case Scalar(_) => true
    case Opaque => false
    case List(items) => items != [] && forall i :: 0 <= i < |items| ==> !items[i].Null? && Tidy(items[i])
    case Mapping(fields) =>
      fields != []
      && forall i :: 0 <= i < |fields| ==> IsSafe(fields[i].key) && !fields[i].value.Null? && Tidy(fields[i].value)
  }

  /** At most this many containers inside each other. */
  predicate Nested(value: Value, levels: nat)
    decreases value
  {
    match value
    case List(items) => levels > 0 && forall i :: 0 <= i < |items| ==> Nested(items[i], levels - 1)
    case Mapping(fields) => levels > 0 && forall i :: 0 <= i < |fields| ==> Nested(fields[i].value, levels - 1)
    case _ => true
  }

  /** What comes out is exactly what is tidy and has at most four levels of containers. */
  lemma {:induction false} CleanMeansTidyAndShallow(value: Value, depth: nat)
    requires depth <= 4
    ensures Clean(value, depth) <==> Tidy(value) && Nested(value, 4 - depth)
    decreases value
  {
    if depth < 4 {
      match value {
        case List(items) =>
          forall i | 0 <= i < |items|
            ensures Clean(items[i], depth + 1) <==> Tidy(items[i]) && Nested(items[i], 3 - depth)
          {
            CleanMeansTidyAndShallow(items[i], depth + 1);
          }
        case Mapping(fields) =>
          forall i | 0 <= i < |fields|
            ensures Clean(fields[i].value, depth + 1) <==> Tidy(fields[i].value) && Nested(fields[i].value, 3 - depth)
          {
            CleanMeansTidyAndShallow(fields[i].value, depth + 1);
          }
        case _ =>
      }
    }
  }

  lemma {:induction false} PresentIsIn(items: seq<Value>)
    ensures forall i :: 0 <= i < |Present(items)| ==> Present(items)[i] in items && !Present(items)[i].Null?
  {
    if items != [] {
      PresentIsIn(items[1..]);
      assert items == [items[0]] + items[1..];
    }
  }

  lemma {:induction false} PresentFieldsAreIn(fields: seq<Field>)
    ensures forall i :: 0 <= i < |PresentFields(fields)| ==>
      PresentFields(fields)[i] in fields && !PresentFields(fields)[i].value.Null?
  {
    if fields != [] {
      PresentFieldsAreIn(fields[1..]);
      assert fields == [fields[0]] + fields[1..];
    }
  }

  lemma {:induction false} SanitizedIsClean(value: Value, depth: nat)
    ensures Clean(Sanitize(value, depth), depth)
    decreases value
  {
    if depth < MAX_DEPTH {
      match value {
        case List(items) =>
          var s := SanitizedItems(items, depth + 1);
          forall i | 0 <= i < |items| ensures Clean(s[i], depth + 1) {
            SanitizedIsClean(items[i], depth + 1);
          }
          PresentIsIn(s);
        case Mapping(fields) =>
          var s := SanitizedFields(fields, depth + 1);
          forall i | 0 <= i < |fields|
            ensures Clean(s[i].value, depth + 1) && (s[i].value.Null? || IsSafe(s[i].key))
          {
            if IsSafe(fields[i].key) {
              SanitizedIsClean(fields[i].value, depth + 1);
            }
          }
          PresentFieldsAreIn(s);
        case _ =>
      }
    }
  }

  lemma {:induction false} AllPresent(items: seq<Value>)
    requires forall i :: 0 <= i < |items| ==> !items[i].Null?
    ensures Present(items) == items
  {
    if items != [] {
      AllPresent(items[1..]);
      assert items == [items[0]] + items[1..];
    }
  }

  lemma {:induction false} AllFieldsPresent(fields: seq<Field>)
    requires forall i :: 0 <= i < |fields| ==> !fields[i].value.Null?
    ensures PresentFields(fields) == fields
  {
    if fields != [] {
      AllFieldsPresent(fields[1..]);
      assert fields == [fields[0]] + fields[1..];
    }
  }

  lemma {:induction false} CleanIsFixed(value: Value, depth: nat)
    requires Clean(value, depth)
    ensures Sanitize(value, depth) == value
    decreases value
  {
    match value {
      case List(items) =>
        forall i | 0 <= i < |items| ensures Sanitize(items[i], depth + 1) == items[i] {
          CleanIsFixed(items[i], depth + 1);
        }
        assert SanitizedItems(items, depth + 1) == items;
        AllPresent(items);
      case Mapping(fields) =>
        forall i | 0 <= i < |fields| ensures Sanitize(fields[i].value, depth + 1) == fields[i].value {
          CleanIsFixed(fields[i].value, depth + 1);
        }
        assert SanitizedFields(fields, depth + 1) == fields;
        AllFieldsPresent(fields);
      case _ =>
    }
  }

  /** Sanitising leaves a value as it is exactly when the value is clean; in particular sanitising twice is sanitising once. */
  lemma FixedExactlyWhenClean(value: Value, depth: nat)
    ensures Sanitize(value, depth) == value <==> Clean(value, depth)
    ensures Sanitize(Sanitize(value, depth), depth) == Sanitize(value, depth)
  {
    SanitizedIsClean(value, depth);
    CleanIsFixed(Sanitize(value, depth), depth);
    if Clean(value, depth) {
      CleanIsFixed(value, depth);
    }
  }

  // ---------------------------------------------------------------- what is kept

  /** A scalar with the keys on the way to it. */
  datatype Leaf = Leaf(path: seq<string>, text: string)

  function Under(key: string, leaves: seq<Leaf>): (r: seq<Leaf>)
    ensures |r| == |leaves|
  {
    seq(|leaves|, i requires 0 <= i < |leaves| => Leaf([key] + leaves[i].path, leaves[i].text))
  }

  function Concat(parts: seq<seq<Leaf>>): seq<Leaf> {
    if parts == [] then [] else parts[0] + Concat(parts[1..])
  }

  /** The scalars that safe keys lead to without passing the depth limit, in order. */
  function Leaves(value: Value, depth: nat): seq<Leaf>
    decreases value
  {
    match value
    case Null => []
    case Opaque => []
    case Scalar(text) => [Leaf([], text)]
    case List(items) =>
      if depth >= MAX_DEPTH then []
      else Concat(seq(|items|, i requires 0 <= i < |items| => Leaves(items[i], depth + 1)))
    case Mapping(fields) =>
      if depth >= MAX_DEPTH then [] else Concat(seq(|fields|, i requires 0 <= i < |fields| => FieldLeaves(fields[i], depth + 1)))
  }

  function FieldLeaves(field: Field, depth: nat): seq<Leaf>
    decreases field
  {
    if IsSafe(field.key) then Under(field.key, Leaves(field.value, depth)) else []
  }

  function ItemLeaves(items: seq<Value>, depth: nat): seq<Leaf> {
    if items == [] then [] else Leaves(items[0], depth) + ItemLeaves(items[1..], depth)
  }

  function FieldsLeaves(fields: seq<Field>, depth: nat): seq<Leaf> {
    if fields == [] then [] else FieldLeaves(fields[0], depth) + FieldsLeaves(fields[1..], depth)
  }

  lemma {:induction false} LeavesOfList(items: seq<Value>, depth: nat)
    ensures Concat(seq(|items|, i requires 0 <= i < |items| => Leaves(items[i], depth))) == ItemLeaves(items, depth)
  {
    var parts := seq(|items|, i requires 0 <= i < |items| => Leaves(items[i], depth));
    if items != [] {
      LeavesOfList(items[1..], depth);
      var rest := items[1..];
      assert parts[1..] == seq(|rest|, i requires 0 <= i < |rest| => Leaves(rest[i], depth));
    }
  }

  lemma {:induction false} LeavesOfMapping(fields: seq<Field>, depth: nat)
    ensures Concat(seq(|fields|, i requires 0 <= i < |fields| => FieldLeaves(fields[i], depth))) == FieldsLeaves(fields, depth)
  {
    var parts := seq(|fields|, i requires 0 <= i < |fields| => FieldLeaves(fields[i], depth));
    if fields != [] {
      LeavesOfMapping(fields[1..], depth);
      var rest := fields[1..];
      assert parts[1..] == seq(|rest|, i requires 0 <= i < |rest| => FieldLeaves(rest[i], depth));
    }
  }

  lemma {:induction false} ItemsKeepLeaves(items: seq<Value>, s: seq<Value>, depth: nat)
    requires |s| == |items|
    requires forall i :: 0 <= i < |s| ==> Leaves(s[i], depth) == Leaves(items[i], depth)
    ensures ItemLeaves(Present(s), depth) == ItemLeaves(items, depth)
  {
    if items != [] {
      ItemsKeepLeaves(items[1..], s[1..], depth);
      var rest := Present(s[1..]);
      assert ([s[0]] + rest)[1..] == rest;
    }
  }

  lemma {:induction false} FieldsKeepLeaves(fields: seq<Field>, s: seq<Field>, depth: nat)
    requires |s| == |fields|
    requires forall i :: 0 <= i < |s| ==> FieldLeaves(s[i], depth) == FieldLeaves(fields[i], depth)
    ensures FieldsLeaves(PresentFields(s), depth) == FieldsLeaves(fields, depth)
  {
    if fields != [] {
      FieldsKeepLeaves(fields[1..], s[1..], depth);
      var rest := PresentFields(s[1..]);
      assert ([s[0]] + rest)[1..] == rest;
    }
  }

  /** Sanitising keeps, in order, every scalar that safe keys lead to within the depth limit. */
  lemma {:induction false} LeavesAreKept(value: Value, depth: nat)
    ensures Leaves(Sanitize(value, depth), depth) == Leaves(value, depth)
    decreases value
  {
    if depth < MAX_DEPTH {
      match value {
        case List(items) =>
          var s := SanitizedItems(items, depth + 1);
          forall i | 0 <= i < |items| ensures Leaves(s[i], depth + 1) == Leaves(items[i], depth + 1) {
            LeavesAreKept(items[i], depth + 1);
          }
          ItemsKeepLeaves(items, s, depth + 1);
          LeavesOfList(items, depth + 1);
          LeavesOfList(Present(s), depth + 1);
        case Mapping(fields) =>
          var s := SanitizedFields(fields, depth + 1);
          forall i | 0 <= i < |fields| ensures FieldLeaves(s[i], depth + 1) == FieldLeaves(fields[i], depth + 1) {
            LeavesAreKept(fields[i].value, depth + 1);
          }
          FieldsKeepLeaves(fields, s, depth + 1);
          LeavesOfMapping(fields, depth + 1);
          LeavesOfMapping(PresentFields(s), depth + 1);
        case _ =>
      }
    }
  }

  /** Nothing is let through exactly when there is nothing to keep. */
  lemma {:induction false} CleanHasLeaves(value: Value, depth: nat)
    requires Clean(value, depth) && !value.Null?
    ensures Leaves(value, depth) != []
    decreases value
  {
    match value {
      case List(items) =>
        CleanHasLeaves(items[0], depth + 1);
        LeavesOfList(items, depth + 1);
      case Mapping(fields) =>
        CleanHasLeaves(fields[0].value, depth + 1);
        LeavesOfMapping(fields, depth + 1);
      case _ =>
    }
  }

  lemma NothingLeft(value: Value, depth: nat)
    ensures Sanitize(value, depth).Null? <==> Leaves(value, depth) == []
  {
    SanitizedIsClean(value, depth);
    LeavesAreKept(value, depth);
    if !Sanitize(value, depth).Null? {
      CleanHasLeaves(Sanitize(value, depth), depth);
    }
  }
}
