/** Address lookup for the sensor forms: a fixed table of known places in São Paulo, looked
    up by the normalised address (exact key first, then the first key in table order that
    is part of the address or contains it), with a randomly perturbed city-centre position
    as the fallback. The two random draws are parameters. */
module Geocoding {
  import opened Text

  datatype Place = Place(latitude: real, longitude: real, formattedAddress: string)

  /** The number of known places. */
  const KeyCount := 10

  /** The key of the `i`-th known place, in declaration order. */
  function Key(i: nat): string
    requires i < KeyCount
  {
    match i
    case 0 => "rio tietê"
    case 1 => "rio pinheiros"
    case 2 => "marginal tietê"
    case 3 => "marginal pinheiros"
    case 4 => "ponte das bandeiras"
    case 5 => "ponte octavio frias"
    case 6 => "são paulo"
    case 7 => "centro"
    case 8 => "vila madalena"
    case _ => "brooklin"
  }

  /** The place stored under `Key(i)`. */
  function Entry(i: nat): Place
    requires i < KeyCount
  {
    match i
    case 0 => Place(-23.5505, -46.6333, "Rio Tietê, São Paulo, SP")
    case 1 => Place(-23.5629, -46.6544, "Rio Pinheiros, São Paulo, SP")
    case 2 => Place(-23.5505, -46.6333, "Marginal Tietê, São Paulo, SP")
    case 3 => Place(-23.5629, -46.6544, "Marginal Pinheiros, São Paulo, SP")
    case 4 => Place(-23.5398, -46.6122, "Ponte das Bandeiras, São Paulo, SP")
    case 5 => Place(-23.5745, -46.689, "Ponte Octavio Frias de Oliveira, São Paulo, SP")
    case 6 => Place(-23.5505, -46.6333, "São Paulo, SP, Brasil")
    case 7 => Place(-23.5505, -46.6333, "Centro, São Paulo, SP")
    case 8 => Place(-23.5505, -46.6875, "Vila Madalena, São Paulo, SP")
    case _ => Place(-23.6108, -46.7022, "Brooklin, São Paulo, SP")
  }

  const BaseLatitude: real := -23.5505
  const BaseLongitude: real := -46.6333
  /** The width of the random offset around the base position, in degrees. */
  const Variation: real := 0.05
  const CitySuffix := ", São Paulo, SP"

  /** A value of `Math.random()`. */
  type Draw = r: real | 0.0 <= r < 1.0

  /** `address.toLowerCase().trim()`. */
  function Normalize(address: string): string
  {
    Trim(Lower(address))
  }

  /** The partial-match test of the lookup loop. */
  predicate Matches(normalized: string, key: string)
  {
    Contains(normalized, key) || Contains(key, normalized)
  }

  /** The index of the entry whose key is `normalized`, searching from `i`, or `KeyCount`. */
  function KeyIndex(normalized: string, i: nat): (r: nat)
    requires i <= KeyCount
    ensures i <= r <= KeyCount
    ensures r < KeyCount ==> Key(r) == normalized
    ensures forall j :: i <= j < r ==> Key(j) != normalized
    decreases KeyCount - i
  {
    if i == KeyCount || Key(i) == normalized then i else KeyIndex(normalized, i + 1)
  }

  /** The index of the first entry from `i` on whose key matches, or `KeyCount`. */
  function FirstMatch(normalized: string, i: nat): (r: nat)
    requires i <= KeyCount
    ensures i <= r <= KeyCount
    ensures r < KeyCount ==> Matches(normalized, Key(r))
    ensures forall j :: i <= j < r ==> !Matches(normalized, Key(j))
    decreases KeyCount - i
  {
    if i == KeyCount || Matches(normalized, Key(i)) then i else FirstMatch(normalized, i + 1)
  }

  /** The place returned when nothing matches: the original address with the city appended,
      at the base position moved by up to half the variation in each direction. */
  function Fallback(address: string, r1: Draw, r2: Draw): (p: Place)
    ensures p.formattedAddress == address + CitySuffix
    ensures BaseLatitude - Variation / 2.0 <= p.latitude < BaseLatitude + Variation / 2.0
    ensures BaseLongitude - Variation / 2.0 <= p.longitude < BaseLongitude + Variation / 2.0
  {
    Place(BaseLatitude + (r1 - 0.5) * Variation, BaseLongitude + (r2 - 0.5) * Variation,
          address + CitySuffix)
  }

  /** What `geocodeAddress` returns, the exact lookup reading only the table's own keys. */
  function Geocode(address: string, r1: Draw, r2: Draw): Place
  {
    var n := Normalize(address);
    var e := KeyIndex(n, 0);
    if e < KeyCount then Entry(e)
    else
      var m := FirstMatch(n, 0);
      if m < KeyCount then Entry(m) else Fallback(address, r1, r2)
  }

  /** `geocodeAddress(address)`, with the exact lookup on the table's own keys. Nothing in it
      throws, so it never returns `null`. */
  method GeocodeAddress(address: string, r1: Draw, r2: Draw) returns (p: Place)
    ensures p == Geocode(address, r1, r2)
  {
    var n := Normalize(address);
    var e := KeyIndex(n, 0);
    if e < KeyCount {
      return Entry(e);
    }
    var i := 0;
    while i < KeyCount
      invariant i <= KeyCount
      invariant FirstMatch(n, 0) == FirstMatch(n, i)
    {
      if Matches(n, Key(i)) {
        return Entry(i);
      }
      i := i + 1;
    }
    p := Fallback(address, r1, r2);
  }

  /** An address whose normal form is a key resolves to that key's entry. */
  lemma GeocodeExact(address: string, i: nat, r1: Draw, r2: Draw)
    requires i < KeyCount && Key(i) == Normalize(address)
    ensures Geocode(address, r1, r2) == Entry(i)
  {
    KeysDistinct(i, KeyIndex(Normalize(address), 0));
  }

  /** Otherwise an address resolves to the first entry, in table order, whose key is part of
      its normal form or contains it. */
  lemma GeocodePartial(address: string, j: nat, r1: Draw, r2: Draw)
    requires forall i :: 0 <= i < KeyCount ==> Key(i) != Normalize(address)
    requires j < KeyCount && Matches(Normalize(address), Key(j))
    requires forall i :: 0 <= i < j ==> !Matches(Normalize(address), Key(i))
    ensures Geocode(address, r1, r2) == Entry(j)
  {
    var n := Normalize(address);
    var e := KeyIndex(n, 0);
    assert e == KeyCount by {
      if e < KeyCount {
        assert false;
      }
    }
    var m := FirstMatch(n, 0);
    assert m == j by {
      if m < j {
        assert false;
      }
    }
  }

  /** An address that is no key and matches none resolves to the fallback, which keeps the
      address as typed. */
  lemma GeocodeFallback(address: string, r1: Draw, r2: Draw)
    requires forall i :: 0 <= i < KeyCount ==> Key(i) != Normalize(address)
    requires forall i :: 0 <= i < KeyCount ==> !Matches(Normalize(address), Key(i))
    ensures Geocode(address, r1, r2) == Fallback(address, r1, r2)
  {
  }

  /** No two entries share a key. */
  lemma KeysDistinct(i: nat, j: nat)
    requires i < KeyCount && j < KeyCount && Key(i) == Key(j)
    ensures i == j
  {
  }

  /** A lower-cased address without white space at its ends is its own normal form. */
  lemma NormalizeLower(address: string, n: string)
    requires Lower(address) == n
    requires n == [] || (!IsJsSpace(n[0]) && !IsJsSpace(n[|n| - 1]))
    ensures Normalize(address) == n
  {
    TrimStartNoOp(n);
    TrimEndNoOp(n);
  }

  /** A string whose length no key has is not a key. */
  lemma NotAKeyByLength(n: string)
    requires |n| !in {6, 8, 9, 13, 14, 18, 19}
    ensures KeyIndex(n, 0) == KeyCount
  {
    forall i | 0 <= i < KeyCount ensures Key(i) != n {
      assert |Key(i)| != |n| by {
        if i == 0 { assert |Key(0)| == 9; }
        else if i == 1 { assert |Key(1)| == 13; }
        else if i == 2 { assert |Key(2)| == 14; }
        else if i == 3 { assert |Key(3)| == 18; }
        else if i == 4 { assert |Key(4)| == 19; }
        else if i == 5 { assert |Key(5)| == 19; }
        else if i == 6 { assert |Key(6)| == 9; }
        else if i == 7 { assert |Key(7)| == 6; }
        else if i == 8 { assert |Key(8)| == 13; }
        else { assert i == 9; assert |Key(9)| == 8; }
      }
    }
  }

  /** An exact key, typed with capitals: "Rio Tietê" is the Rio Tietê entry. */
  lemma ExactExample(r1: Draw, r2: Draw)
    ensures Geocode("Rio Tietê", r1, r2) == Place(-23.5505, -46.6333, "Rio Tietê, São Paulo, SP")
  {
    assert Normalize("Rio Tietê") == Key(0) by {
      assert Lower("Rio Tietê") == "rio tietê";
      NormalizeLower("Rio Tietê", "rio tietê");
    }
  }

  /** An address holding a key, as the form's examples write it. */
  const BridgeOnTiete := "rio tietê - ponte das bandeiras"

  /** "rio tietê - ponte das bandeiras" is the Rio Tietê entry, the first key in table order
      that it contains. */
  lemma PartialExample(r1: Draw, r2: Draw)
    ensures Geocode(BridgeOnTiete, r1, r2) == Entry(0)
  {
    BridgeNormalized();
    NotAKeyByLength(BridgeOnTiete);
    BridgeHoldsFirstKey();
  }

  lemma BridgeNormalized()
    ensures Normalize(BridgeOnTiete) == BridgeOnTiete
  {
    assert Lower(BridgeOnTiete) == BridgeOnTiete;
    NormalizeLower(BridgeOnTiete, BridgeOnTiete);
  }

  lemma BridgeHoldsFirstKey()
    ensures Matches(BridgeOnTiete, Key(0))
  {
    assert Key(0) <= BridgeOnTiete;
  }

  /** An empty or blank address is the first entry, since every key contains "". */
  lemma BlankIsFirstEntry(address: string, r1: Draw, r2: Draw)
    requires forall i :: 0 <= i < |address| ==> IsJsSpace(address[i])
    ensures Geocode(address, r1, r2) == Entry(0)
  {
    BlankNormalizesEmpty(address);
    NotAKeyByLength("");
    ContainsEmpty(Key(0));
  }

  /** Lower-casing keeps white space, so a blank address normalises to "". */
  lemma BlankNormalizesEmpty(address: string)
    requires forall i :: 0 <= i < |address| ==> IsJsSpace(address[i])
    ensures Normalize(address) == ""
  {
    var l := Lower(address);
    forall i | 0 <= i < |l| ensures IsJsSpace(l[i]) {
      LowerKeepsSpace(address[i]);
    }
    TrimEmptyIff(l);
  }

  // The lookup as the source writes it, with `knownLocations[normalizedAddress]` on a plain
  // object: a key that names a member of `Object.prototype` finds that member.

  /** The members of `Object.prototype`. Only "constructor" and "__proto__" survive
      lower-casing, and both hold a truthy value (a function and an object). */
  const PrototypeMembers: set<string> := {
    "constructor", "__proto__", "hasOwnProperty", "isPrototypeOf", "propertyIsEnumerable",
    "toLocaleString", "toString", "valueOf", "__defineGetter__", "__defineSetter__",
    "__lookupGetter__", "__lookupSetter__" }

  /** `knownLocations[key]` on the object literal: an own entry, an inherited member, or
      `undefined`. */
  datatype Property = OwnEntry(place: Place) | Inherited(name: string) | Absent

  function PropertyAsWritten(key: string): Property
  {
    var e := KeyIndex(key, 0);
    if e < KeyCount then OwnEntry(Entry(e))
    else if key in PrototypeMembers then Inherited(key)
    else Absent
  }

  /** What the source's `geocodeAddress` returns: a place, or an inherited member that is
      not one. */
  datatype Answer = Located(place: Place) | NotAPlace(member: string)

  function GeocodeAsWritten(address: string, r1: Draw, r2: Draw): Answer
  {
    var n := Normalize(address);
    match PropertyAsWritten(n)
    case OwnEntry(p) => Located(p)
    case Inherited(m) => NotAPlace(m)
    case Absent =>
      var m := FirstMatch(n, 0);
      Located(if m < KeyCount then Entry(m) else Fallback(address, r1, r2))
  }

  /** As written, "Constructor" (longer than three characters, so the sensor form looks it
      up) returns `Object.prototype.constructor`, which has no coordinates. */
  lemma ConstructorIsNotAPlace(r1: Draw, r2: Draw)
    ensures GeocodeAsWritten("Constructor", r1, r2) == NotAPlace("constructor")
  {
    assert Normalize("Constructor") == "constructor" by {
      assert Lower("Constructor") == "constructor";
      NormalizeLower("Constructor", "constructor");
    }
    assert KeyIndex("constructor", 0) == KeyCount by {
      NotAKeyByLength("constructor");
    }
  }

  /** The source and the own-key lookup agree on every address whose normalised form is not a
      member of `Object.prototype`. */
  lemma AsWrittenAgrees(address: string, r1: Draw, r2: Draw)
    requires Normalize(address) !in PrototypeMembers
    ensures GeocodeAsWritten(address, r1, r2) == Located(Geocode(address, r1, r2))
  {
  }

  /** With the own-key lookup every address, "Constructor" included, resolves to a known
      place or to the fallback for that address. */
  lemma GeocodeIsAPlace(address: string, r1: Draw, r2: Draw)
    ensures || (exists i :: 0 <= i < KeyCount && Geocode(address, r1, r2) == Entry(i))
            || Geocode(address, r1, r2) == Fallback(address, r1, r2)
  {
    var n := Normalize(address);
    var e := KeyIndex(n, 0);
    if e < KeyCount {
      assert Geocode(address, r1, r2) == Entry(e);
    } else {
      var m := FirstMatch(n, 0);
      if m < KeyCount {
        assert Geocode(address, r1, r2) == Entry(m);
      }
    }
  }
}
