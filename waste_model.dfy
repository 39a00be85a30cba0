/** The waste record of `models/waste_model.py`: the constructor with its
    defaults, the conversions to and from a dictionary, and the list of waste
    types. Field values are dynamically typed in the source, so they are
    modelled as a small universe of values. */
module WasteModel {

  /** A Python value as stored in a record: `None`, a boolean, a number, a
      string, or a `datetime` (as an instant). */
  datatype Value = None | Bool(b: bool) | Int(i: int) | Real(r: real) | Str(s: string) | Time(t: int)

  /** Python truthiness: `None`, `False`, zero and the empty string are
      false; every `datetime` is true. */
  predicate Truthy(v: Value)
  {
    match v
    case None => false
    case Bool(b) => b
    case Int(i) => i != 0
    case Real(r) => r != 0.0
    case Str(s) => s != ""
    case Time(_) => true
  }

  datatype Waste = Waste(id: Value, wasteType: Value, weight: Value, location: Value,
                         segregated: Value, timestamp: Value, userId: Value, ward: Value)

  /** `Waste(...)`: every field is stored as given, except that a timestamp
      that is not truthy becomes the current time `now`. */
  function NewWaste(id: Value, wasteType: Value, weight: Value, location: Value, segregated: Value,
                    timestamp: Value, userId: Value, ward: Value, now: int): (w: Waste)
    ensures Truthy(w.timestamp)
    ensures Truthy(timestamp) ==> w.timestamp == timestamp
    ensures !Truthy(timestamp) ==> w.timestamp == Time(now)
  {
    Waste(id, wasteType, weight, location, segregated, if Truthy(timestamp) then timestamp else Time(now), userId, ward)
  }

  /** `Waste()` with every argument left at its default: `segregated` is
      `True`, every other argument `None`. */
  function DefaultWaste(now: int): (w: Waste)
    ensures w.segregated == Bool(true) && w.timestamp == Time(now)
    ensures w.id == None && w.wasteType == None && w.weight == None && w.location == None
    ensures w.userId == None && w.ward == None
  {
    NewWaste(None, None, None, None, Bool(true), None, None, None, now)
  }

  /** A record as its constructor would leave it: with a truthy timestamp. */
  predicate Constructed(w: Waste)
  {
    Truthy(w.timestamp)
  }

  const Keys: set<string> := {"id", "type", "weight", "location", "segregated", "timestamp", "user_id", "ward"}

  function ToDict(w: Waste): (d: map<string, Value>)
    ensures d.Keys == Keys
  {
    map["id" := w.id, "type" := w.wasteType, "weight" := w.weight, "location" := w.location,
        "segregated" := w.segregated, "timestamp" := w.timestamp, "user_id" := w.userId, "ward" := w.ward]
  }

  /** `dict.get(key, default)`. */
  function Get(d: map<string, Value>, key: string, default: Value): Value
  {
    if key in d then d[key] else default
  }

  /** `from_dict`: the fields are read with `get`, `segregated` defaulting to
      `True`, and passed to the constructor. */
  function FromDict(d: map<string, Value>, now: int): Waste
  {
    NewWaste(Get(d, "id", None), Get(d, "type", None), Get(d, "weight", None), Get(d, "location", None),
             Get(d, "segregated", Bool(true)), Get(d, "timestamp", None), Get(d, "user_id", None),
             Get(d, "ward", None), now)
  }

  /** An empty dictionary reads back as the record built from the defaults. */
  lemma EmptyDictIsDefault(now: int)
    ensures FromDict(map[], now) == DefaultWaste(now)
  {
  }

  /** Converting a constructed record to a dictionary and back reproduces
      every field, whatever the time of the second conversion. */
  lemma RoundTrip(w: Waste, now: int)
    requires Constructed(w)
    ensures FromDict(ToDict(w), now) == w
  {
  }

  /** So every record the constructor builds survives the round trip. */
  lemma NewWasteRoundTrip(id: Value, wasteType: Value, weight: Value, location: Value, segregated: Value,
                          timestamp: Value, userId: Value, ward: Value, now: int, later: int)
    ensures var w := NewWaste(id, wasteType, weight, location, segregated, timestamp, userId, ward, now);
      FromDict(ToDict(w), later) == w
  {
    RoundTrip(NewWaste(id, wasteType, weight, location, segregated, timestamp, userId, ward, now), later);
  }

  /** A missing `segregated` is `True`, an explicit `False` stays `False`;
      a missing, `None` or otherwise falsy timestamp becomes `now` and a
      truthy one is kept; every other missing key becomes `None`. */
  lemma FromDictDefaults(d: map<string, Value>, now: int)
    ensures "segregated" !in d ==> FromDict(d, now).segregated == Bool(true)
    ensures "segregated" in d && d["segregated"] == Bool(false) ==> FromDict(d, now).segregated == Bool(false)
    ensures ("timestamp" !in d || !Truthy(d["timestamp"])) ==> FromDict(d, now).timestamp == Time(now)
    ensures "timestamp" in d && Truthy(d["timestamp"]) ==> FromDict(d, now).timestamp == d["timestamp"]
    ensures "id" !in d ==> FromDict(d, now).id == None
    ensures "type" !in d ==> FromDict(d, now).wasteType == None
    ensures "weight" !in d ==> FromDict(d, now).weight == None
    ensures "location" !in d ==> FromDict(d, now).location == None
    ensures "user_id" !in d ==> FromDict(d, now).userId == None
    ensures "ward" !in d ==> FromDict(d, now).ward == None
  {
  }

  /** The codes and labels of `get_waste_types`, in the dictionary's order. */
  const WasteTypes: seq<(string, string)> := [
    ("wet", "Wet/Organic Waste"),
    ("dry", "Dry/Recyclable Waste"),
    ("hazardous", "Household Hazardous Waste"),
    ("sanitary", "Sanitary Waste"),
    ("ewaste", "Electronic Waste"),
    ("construction", "Construction & Demolition Waste")
  ]

  function Codes(types: seq<(string, string)>): (codes: seq<string>)
    ensures |codes| == |types| && forall i :: 0 <= i < |types| ==> codes[i] == types[i].0
  {
    if types == [] then [] else [types[0].0] + Codes(types[1..])
  }

  /** Exactly six distinct codes. */
  lemma WasteTypeCodes()
    ensures Codes(WasteTypes) == ["wet", "dry", "hazardous", "sanitary", "ewaste", "construction"]
    ensures forall i, j :: 0 <= i < j < |WasteTypes| ==> WasteTypes[i].0 != WasteTypes[j].0
  {
    var c := Codes(WasteTypes);
    assert c[0] == "wet" && c[1] == "dry" && c[2] == "hazardous";
    assert c[3] == "sanitary" && c[4] == "ewaste" && c[5] == "construction";
  }
}
