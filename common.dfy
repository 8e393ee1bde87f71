/** Values shared by the fuel-entry form and the invoice page. */
module Common {

  /** A JavaScript value that may be `null` or `undefined`. */
  datatype Option<+T> = None | Some(value: T) {
    function GetOr(default: T): T {
      match this
      case Some(v) => v
      case None => default
    }
  }

  /** A string is truthy in JavaScript exactly when it is not empty. */
  predicate Truthy(s: string) {
    s != ""
  }

  /** `x || fallback` on an optional string: a missing or empty string gives the fallback. */
  function OrElse(x: Option<string>, fallback: string): (r: string)
    ensures Truthy(r) || r == fallback
    ensures x.Some? && Truthy(x.value) ==> r == x.value
    ensures (x.None? || !Truthy(x.value)) ==> r == fallback
  {
    if x.Some? && Truthy(x.value) then x.value else fallback
  }

  /** A signature is present when it is neither `null` nor an empty string. */
  predicate SignaturePresent(sig: Option<string>) {
    sig.Some? && Truthy(sig.value)
  }

  /** Whether `s` begins with `p`. */
  predicate StartsWith(s: string, p: string) {
    |p| <= |s| && s[..|p|] == p
  }

  /** Whether `s` ends with `p`. */
  predicate EndsWith(s: string, p: string) {
    |p| <= |s| && s[|s| - |p|..] == p
  }

  /** The fixed fleet roster offered by both vehicle pickers. */
  const Vehicles: seq<string> := [
    "CCB-06", "CCB-07", "CCB-08", "CCB-10", "CCB-12", "CCB-13", "CCB-15", "CCB-16",
    "VAN-111", "VAN-139", "STB-18", "STB-23", "STB-25", "STB-28"
  ]

  /** The fuel types the edit dialog offers; the entry form only ever uses the first. */
  const FuelTypes: seq<string> := ["HVO", "Diesel"]

  /** The roster has fourteen distinct, non-empty plates. */
  lemma RosterShape()
    ensures |Vehicles| == 14
    ensures forall i, j :: 0 <= i < j < |Vehicles| ==> Vehicles[i] != Vehicles[j]
    ensures forall v :: v in Vehicles ==> Truthy(v)
  {
  }
}
