/** The domain objects built from decoded API responses: carriers, tracking
    events and tracked packages. Every field is a plain subscript of the
    response, so a missing key fails; date-time fields go through a
    date-time parser that the model takes as a parameter (`isoparse`),
    which yields None where the parser raises. */
module Models {
  import opened Wire

  datatype Carrier = Carrier(slug: Json, name: Json, url: Json, trackingUrl: Json)

  datatype TrackingEvent<D> = TrackingEvent(id: Json, status: Json, carrierCode: Json,
                                            description: Json, timestamp: D, location: Json)

  datatype TrackedPackage<D> = TrackedPackage(id: Json, trackingNumber: Json, url: Json, createdAt: D,
                                              carrier: Json, carrierUrl: Json,
                                              events: seq<TrackingEvent<D>>)

  /** `k` is the first key of `keys` that `fields` lacks. */
  predicate FirstMissing(fields: map<string, Json>, keys: seq<string>, k: string)
  {
    exists i :: 0 <= i < |keys| && keys[i] == k && k !in fields && forall j :: 0 <= j < i ==> keys[j] in fields
  }

  /** `data[k]` for each key `k` of `keys` in turn; the first subscript
      that fails decides the error. */
  function Fields(data: Json, keys: seq<string>): (r: Result<seq<Json>>)
    ensures r.Ok? <==> forall i :: 0 <= i < |keys| ==> Subscript(data, keys[i]).Ok?
    ensures r.Ok? ==> |r.value| == |keys| &&
                      forall i :: 0 <= i < |keys| ==> Subscript(data, keys[i]) == Ok(r.value[i])
    ensures r.Err? ==> exists i :: 0 <= i < |keys| && Subscript(data, keys[i]) == Err(r.error) &&
                                   forall j :: 0 <= j < i ==> Subscript(data, keys[j]).Ok?
    decreases |keys|
  {
    if keys == [] then Ok([])
    else
      match Subscript(data, keys[0])
      case Err(e) => Err(e)
      case Ok(v) =>
        match Fields(data, keys[1..])
        case Err(e) =>
          assert exists i :: 0 <= i < |keys| - 1 && Subscript(data, keys[1..][i]) == Err(e) &&
                             forall j :: 0 <= j < i ==> Subscript(data, keys[1..][j]).Ok?;
          Err(e)
        case Ok(vs) => Ok([v] + vs)
  }

  /** On an object, reading the keys fails with a KeyError for the first
      key the object lacks. */
  lemma FieldsFirstMissing(data: Json, keys: seq<string>)
    requires Fields(data, keys).Err?
    ensures data.JObject? ==>
              Fields(data, keys).error.KeyError? && FirstMissing(data.fields, keys, Fields(data, keys).error.key)
  {
  }

  const CarrierKeys: seq<string> := ["slug", "name", "url", "trackings_url"]

  /** `Carrier(data)`: slug, name and url from the keys of the same name,
      the tracking URL from "trackings_url". */
  function CarrierFrom(data: Json): (r: Result<Carrier>)
    ensures r.Ok? <==> data.JObject? && "slug" in data.fields && "name" in data.fields &&
                       "url" in data.fields && "trackings_url" in data.fields
    ensures r.Ok? ==> r.value == Carrier(data.fields["slug"], data.fields["name"], data.fields["url"],
                                         data.fields["trackings_url"])
    ensures !data.JObject? ==> r == Err(TypeError)
    ensures r.Err? && data.JObject? ==> r.error.KeyError? && FirstMissing(data.fields, CarrierKeys, r.error.key)
  {
    match Fields(data, CarrierKeys)
    case Err(e) => FieldsFirstMissing(data, CarrierKeys); Err(e)
    case Ok(vs) => Ok(Carrier(vs[0], vs[1], vs[2], vs[3]))
  }

  const EventKeys: seq<string> := ["id", "status", "carrier_code", "description", "timestamp"]

  /** `TrackingEvent(data)`: five fields copied verbatim and the timestamp
      parsed; the timestamp is parsed before "location" is read. */
  function TrackingEventFrom<D>(data: Json, isoparse: Json -> Option<D>): (r: Result<TrackingEvent<D>>)
    ensures r.Ok? <==> data.JObject? && (forall k :: k in EventKeys ==> k in data.fields) &&
                       isoparse(data.fields["timestamp"]).Some? && "location" in data.fields
    ensures r.Ok? ==> r.value == TrackingEvent(data.fields["id"], data.fields["status"], data.fields["carrier_code"],
                                               data.fields["description"], isoparse(data.fields["timestamp"]).value,
                                               data.fields["location"])
    ensures !data.JObject? ==> r == Err(TypeError)
  {
    match Fields(data, EventKeys)
    case Err(e) => Err(e)
    case Ok(vs) =>
      match isoparse(vs[4])
      case None => Err(InvalidTimestamp(vs[4]))
      case Some(timestamp) =>
        match Subscript(data, "location")
        case Err(e) => Err(e)
        case Ok(location) => Ok(TrackingEvent(vs[0], vs[1], vs[2], vs[3], timestamp, location))
  }

  /** Which error a tracking event fails with: the first missing one of the
      five keys, else the unparsable timestamp, else the missing "location". */
  lemma TrackingEventFromError<D>(data: Json, isoparse: Json -> Option<D>)
    requires data.JObject? && TrackingEventFrom(data, isoparse).Err?
    ensures var e := TrackingEventFrom(data, isoparse).error;
            || (e.KeyError? && FirstMissing(data.fields, EventKeys, e.key))
            || (&& (forall k :: k in EventKeys ==> k in data.fields)
                && isoparse(data.fields["timestamp"]).None?
                && e == InvalidTimestamp(data.fields["timestamp"]))
            || (&& (forall k :: k in EventKeys ==> k in data.fields)
                && isoparse(data.fields["timestamp"]).Some?
                && "location" !in data.fields && e == KeyError("location"))
  {
    if Fields(data, EventKeys).Err? { FieldsFirstMissing(data, EventKeys); }
  }

  /** The events of a package, one per input item, in the same order; the
      first item that fails decides the error. */
  function EventsFrom<D>(items: seq<Json>, isoparse: Json -> Option<D>): (r: Result<seq<TrackingEvent<D>>>)
    ensures r.Ok? ==> |r.value| == |items|
    decreases |items|
  {
    if items == [] then Ok([])
    else
      match TrackingEventFrom(items[0], isoparse)
      case Err(e) => Err(e)
      case Ok(event) =>
        match EventsFrom(items[1..], isoparse)
        case Err(e) => Err(e)
        case Ok(rest) => Ok([event] + rest)
  }

  /** The events are built exactly when every item converts. */
  lemma {:induction false} EventsFromOk<D>(items: seq<Json>, isoparse: Json -> Option<D>)
    ensures EventsFrom(items, isoparse).Ok? <==>
              forall i :: 0 <= i < |items| ==> TrackingEventFrom(items[i], isoparse).Ok?
    decreases |items|
  {
    if items != [] {
      EventsFromOk(items[1..], isoparse);
      AllConvertCons(items, isoparse);
      assert EventsFrom(items, isoparse).Ok? <==>
               TrackingEventFrom(items[0], isoparse).Ok? && EventsFrom(items[1..], isoparse).Ok?;
    }
  }

  /** Every item's event can be built. */
  ghost predicate AllConvert<D>(items: seq<Json>, isoparse: Json -> Option<D>)
  {
    forall i :: 0 <= i < |items| ==> TrackingEventFrom(items[i], isoparse).Ok?
  }

  /** All items convert exactly when the first does and all the others do. */
  lemma AllConvertCons<D>(items: seq<Json>, isoparse: Json -> Option<D>)
    requires items != []
    ensures AllConvert(items, isoparse) <==>
              TrackingEventFrom(items[0], isoparse).Ok? && AllConvert(items[1..], isoparse)
  {
    assert forall i :: 0 < i < |items| ==> items[i] == items[1..][i - 1];
  }

  /** Built events are in item order: each is the one built from the item at
      the same position. */
  lemma {:induction false} EventsFromEach<D>(items: seq<Json>, isoparse: Json -> Option<D>)
    requires EventsFrom(items, isoparse).Ok?
    ensures forall i :: 0 <= i < |items| ==>
              TrackingEventFrom(items[i], isoparse) == Ok(EventsFrom(items, isoparse).value[i])
    decreases |items|
  {
    if items != [] {
      EventsFromEach(items[1..], isoparse);
      var r := EventsFrom(items, isoparse);
      var rest := EventsFrom(items[1..], isoparse).value;
      assert r.value == [TrackingEventFrom(items[0], isoparse).value] + rest;
      forall i | 0 < i < |items| ensures TrackingEventFrom(items[i], isoparse) == Ok(r.value[i]) {
        assert items[i] == items[1..][i - 1];
        assert r.value[i] == rest[i - 1];
      }
    }
  }

  /** Item `i` is the first one whose event cannot be built, and it fails
      with `e`. */
  ghost predicate FailsFirstAt<D>(items: seq<Json>, isoparse: Json -> Option<D>, i: int, e: Error)
  {
    && 0 <= i < |items|
    && TrackingEventFrom(items[i], isoparse) == Err(e)
    && AllConvert(items[..i], isoparse)
  }

  /** Putting an item that converts in front moves the first failure one
      place on. */
  lemma FailsFirstAtCons<D>(items: seq<Json>, isoparse: Json -> Option<D>, i: int, e: Error)
    requires items != [] && TrackingEventFrom(items[0], isoparse).Ok?
    requires FailsFirstAt(items[1..], isoparse, i, e)
    ensures FailsFirstAt(items, isoparse, i + 1, e)
  {
    assert items[i + 1] == items[1..][i];
    assert items[..i + 1][1..] == items[1..][..i];
    AllConvertCons(items[..i + 1], isoparse);
  }

  /** A failed conversion fails with the error of the first event that
      cannot be built. */
  lemma {:induction false} EventsFromFirstFailure<D>(items: seq<Json>, isoparse: Json -> Option<D>)
    requires EventsFrom(items, isoparse).Err?
    ensures exists i :: FailsFirstAt(items, isoparse, i, EventsFrom(items, isoparse).error)
    decreases |items|
  {
    var e := EventsFrom(items, isoparse).error;
    if TrackingEventFrom(items[0], isoparse).Ok? {
      EventsFromFirstFailure(items[1..], isoparse);
      assert EventsFrom(items[1..], isoparse).error == e;
      var i :| FailsFirstAt(items[1..], isoparse, i, e);
      FailsFirstAtCons(items, isoparse, i, e);
    } else {
      assert FailsFirstAt(items, isoparse, 0, e);
    }
  }

  const PackageKeys: seq<string> := ["id", "tracking_number", "url", "created_at"]
  /** The keys read after the creation time has been parsed. */
  const PackageRestKeys: seq<string> := ["carrier", "carrier_url", "events"]

  /** `TrackedPackage(data)`: four fields copied verbatim, the creation time
      parsed (before "carrier" is read), and one TrackingEvent per item of
      "events". */
  function TrackedPackageFrom<D>(data: Json, isoparse: Json -> Option<D>): (r: Result<TrackedPackage<D>>)
    ensures r.Ok? <==> && data.JObject?
                       && (forall k :: k in PackageKeys ==> k in data.fields)
                       && isoparse(data.fields["created_at"]).Some?
                       && "carrier" in data.fields && "carrier_url" in data.fields && "events" in data.fields
                       && Iterate(data.fields["events"]).Ok?
                       && EventsFrom(Iterate(data.fields["events"]).value, isoparse).Ok?
    ensures r.Ok? ==> && r.value.id == data.fields["id"]
                      && r.value.trackingNumber == data.fields["tracking_number"]
                      && r.value.url == data.fields["url"]
                      && isoparse(data.fields["created_at"]) == Some(r.value.createdAt)
                      && r.value.carrier == data.fields["carrier"]
                      && r.value.carrierUrl == data.fields["carrier_url"]
                      && Iterate(data.fields["events"]).Ok?
                      && EventsFrom(Iterate(data.fields["events"]).value, isoparse) == Ok(r.value.events)
    ensures !data.JObject? ==> r == Err(TypeError)
  {
    match Fields(data, PackageKeys)
    case Err(e) => Err(e)
    case Ok(vs) =>
      match isoparse(vs[3])
      case None => Err(InvalidTimestamp(vs[3]))
      case Some(createdAt) =>
        match Fields(data, PackageRestKeys)
        case Err(e) => Err(e)
        case Ok(ws) =>
          match Iterate(ws[2])
          case Err(e) => Err(e)
          case Ok(items) =>
            match EventsFrom(items, isoparse)
            case Err(e) => Err(e)
            case Ok(events) => Ok(TrackedPackage(vs[0], vs[1], vs[2], createdAt, ws[0], ws[1], events))
  }

  /** Which error a tracked package fails with, in the order its fields are
      read: a missing key of the first four, the unparsable creation time, a
      missing key of the last three, "events" not iterable, or the first
      event that cannot be built. */
  lemma TrackedPackageFromError<D>(data: Json, isoparse: Json -> Option<D>)
    requires data.JObject? && TrackedPackageFrom(data, isoparse).Err?
    ensures var e := TrackedPackageFrom(data, isoparse).error;
            || (e.KeyError? && FirstMissing(data.fields, PackageKeys, e.key))
            || (&& (forall k :: k in PackageKeys ==> k in data.fields)
                && isoparse(data.fields["created_at"]).None?
                && e == InvalidTimestamp(data.fields["created_at"]))
            || (&& (forall k :: k in PackageKeys ==> k in data.fields)
                && isoparse(data.fields["created_at"]).Some?
                && e.KeyError? && FirstMissing(data.fields, PackageRestKeys, e.key))
            || (&& (forall k :: k in PackageKeys + PackageRestKeys ==> k in data.fields)
                && isoparse(data.fields["created_at"]).Some?
                && Iterate(data.fields["events"]) == Err(e))
            || (&& (forall k :: k in PackageKeys + PackageRestKeys ==> k in data.fields)
                && isoparse(data.fields["created_at"]).Some?
                && Iterate(data.fields["events"]).Ok?
                && EventsFrom(Iterate(data.fields["events"]).value, isoparse) == Err(e))
  {
    if Fields(data, PackageKeys).Err? {
      FieldsFirstMissing(data, PackageKeys);
    } else if Fields(data, PackageRestKeys).Err? {
      FieldsFirstMissing(data, PackageRestKeys);
    }
  }

  /** A package whose "events" is a JSON array has exactly one event per
      element, in the same order, each built from that element. */
  lemma EventsPreserveOrder<D>(data: Json, isoparse: Json -> Option<D>, i: nat)
    requires TrackedPackageFrom(data, isoparse).Ok?
    requires data.fields["events"].JArray? && i < |data.fields["events"].items|
    ensures |TrackedPackageFrom(data, isoparse).value.events| == |data.fields["events"].items|
    ensures TrackingEventFrom(data.fields["events"].items[i], isoparse) ==
              Ok(TrackedPackageFrom(data, isoparse).value.events[i])
  {
    EventsFromOk(data.fields["events"].items, isoparse);
    EventsFromEach(data.fields["events"].items, isoparse);
  }
}
