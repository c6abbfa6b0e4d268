/**
 * JSON values as the network layer sees them after `JSONSerialization`,
 * plus the one non-JSON value that can sit inside an outgoing body, a
 * `UUID`. `recursivelySanitize` replaces every UUID, at any depth, by its
 * lower-case string.
 */
module Payload {
  import opened Wrappers
  import opened Hex
  import opened Uuids

  datatype Json =
    | Null
    | Bool(b: bool)
    | Number(n: int)
    | Str(s: string)
    | UuidValue(u: Uuid)
    | Array(items: seq<Json>)
    | Object(fields: map<string, Json>)

  /** No UUID occurs anywhere in `v`. */
  predicate NoUuid(v: Json)
  {
    match v
    case UuidValue(_) => false
    case Array(items) => forall i :: 0 <= i < |items| ==> NoUuid(items[i])
    case Object(fields) => forall k :: k in fields ==> NoUuid(fields[k])
    case _ => true
  }

  /** `uuid.uuidString.lowercased()`. */
  function LowerUuidString(u: Uuid): (s: string)
    ensures ParseUuid(s) == Some(u)
  {
    ParseUuidString(u);
    LowerString(UuidString(u))
  }

  /** The value `recursivelySanitize` computes. */
  function Sanitized(v: Json): Json
  {
    match v
    case UuidValue(u) => Str(LowerUuidString(u))
    case Array(items) => Array(seq(|items|, i requires 0 <= i < |items| => Sanitized(items[i])))
    case Object(fields) => Object(map k | k in fields :: Sanitized(fields[k]))
    case _ => v
  }

  /**
   * `v` and `w` have the same shape: arrays of equal length, objects with
   * equal keys, element by element, where `w` may hold a string in place of
   * a UUID of `v`; other scalars are equal.
   */
  predicate SameShape(v: Json, w: Json)
  {
    match v
    case UuidValue(_) => w.Str?
    case Array(items) =>
      w.Array? && |w.items| == |items| && forall i :: 0 <= i < |items| ==> SameShape(items[i], w.items[i])
    case Object(fields) =>
      w.Object? && w.fields.Keys == fields.Keys && forall k :: k in fields ==> SameShape(fields[k], w.fields[k])
    case _ => w == v
  }

  /**
   * Sanitising leaves no UUID, keeps the shape (array lengths, dictionary
   * keys, other scalars), turns each UUID into a string that parses back to
   * it, and is idempotent.
   */
  lemma {:induction false} SanitizedSpec(v: Json)
    ensures NoUuid(Sanitized(v))
    ensures SameShape(v, Sanitized(v))
    ensures v.UuidValue? ==> Sanitized(v).Str? && ParseUuid(Sanitized(v).s) == Some(v.u)
    ensures Sanitized(Sanitized(v)) == Sanitized(v)
  {
    match v
    case Array(items) =>
      forall i | 0 <= i < |items| ensures NoUuid(Sanitized(items[i])) && SameShape(items[i], Sanitized(items[i]))
        && Sanitized(Sanitized(items[i])) == Sanitized(items[i])
      {
        SanitizedSpec(items[i]);
      }
    case Object(fields) =>
      forall k | k in fields ensures NoUuid(Sanitized(fields[k])) && SameShape(fields[k], Sanitized(fields[k]))
        && Sanitized(Sanitized(fields[k])) == Sanitized(fields[k])
      {
        SanitizedSpec(fields[k]);
      }
    case _ =>
  }

  /** A value with no UUID is left alone. */
  lemma {:induction false} SanitizeNoUuid(v: Json)
    requires NoUuid(v)
    ensures Sanitized(v) == v
  {
    match v
    case Array(items) =>
      forall i | 0 <= i < |items| ensures Sanitized(items[i]) == items[i] {
        SanitizeNoUuid(items[i]);
      }
    case Object(fields) =>
      forall k | k in fields ensures Sanitized(fields[k]) == fields[k] {
        SanitizeNoUuid(fields[k]);
      }
    case _ =>
  }

  /**
   * `recursivelySanitize(value:)`: rewrites the array elements in a loop over
   * the indices and the dictionary values in a loop over the keys.
   */
  method RecursivelySanitize(v: Json) returns (r: Json)
    ensures r == Sanitized(v)
    decreases v
  {
    match v {
      case UuidValue(u) =>
        return Str(LowerUuidString(u));
      case Array(items) =>
        var elements := items;
        for i := 0 to |items|
          invariant |elements| == |items|
          invariant forall j :: 0 <= j < i ==> elements[j] == Sanitized(items[j])
          invariant forall j :: i <= j < |items| ==> elements[j] == items[j]
        {
          var e := RecursivelySanitize(items[i]);
          elements := elements[i := e];
        }
        return Array(elements);
      case Object(fields) =>
        var dictionary := fields;
        var remaining := fields.Keys;
        while remaining != {}
          invariant remaining <= fields.Keys
          invariant dictionary.Keys == fields.Keys
          invariant forall k :: k in fields && k !in remaining ==> dictionary[k] == Sanitized(fields[k])
          invariant forall k :: k in remaining ==> dictionary[k] == fields[k]
          decreases |remaining|
        {
          var key :| key in remaining;
          var e := RecursivelySanitize(fields[key]);
          dictionary := dictionary[key := e];
          remaining := remaining - {key};
        }
        assert dictionary == map k | k in fields :: Sanitized(fields[k]);
        return Object(dictionary);
      case _ =>
        return v;
    }
  }

  /** The body of `updateTasks(_:)`: every top-level value of every task dictionary sanitised. */
  function SanitizedBodies(bodies: seq<map<string, Json>>): (r: seq<map<string, Json>>)
    ensures |r| == |bodies|
    ensures forall i :: 0 <= i < |r| ==> r[i].Keys == bodies[i].Keys
    ensures forall i, k :: 0 <= i < |r| && k in r[i] ==> NoUuid(r[i][k])
  {
    var r := seq(|bodies|, i requires 0 <= i < |bodies| => map k | k in bodies[i] :: Sanitized(bodies[i][k]));
    assert forall i, k :: 0 <= i < |r| && k in r[i] ==> NoUuid(r[i][k]) by {
      forall i, k | 0 <= i < |r| && k in r[i] ensures NoUuid(r[i][k]) {
        SanitizedSpec(bodies[i][k]);
      }
    }
    r
  }
}
