/** The car controller (controllers/carController.js). */
module CarController {
  import opened Js
  import opened Http
  import opened CarModel

  /** The store calls the controller issues. */
  datatype CarCall =
    | Create(args: CarRow)
    | SelectAll
    | SelectById(id: string)
    | UpdateById(updateId: string, patch: Object)
    | DeleteById(deleteId: string)
    | SetAvailability(availabilityId: string, availability: Value)

  /** Where the server says it is reachable. */
  const Host: string := "http://localhost:5000"

  /** The public path of an uploaded file, or null without an upload. */
  function ImagePath(file: Option<string>): (v: Value)
    ensures file.None? <==> v == Null
    ensures file.Some? ==> v == Str("/uploads/" + file.value)
  {
    if file.Some? then Str("/uploads/" + file.value) else Null
  }

  /** createCar: the body's fields in column order, `availability || true`
      and the upload's path; 201, or 500 on a store error. */
  function CreateCar(body: Object, file: Option<string>, dbFails: bool): (o: Outcome<CarCall>)
    ensures o.call.Some? && o.call.value.Create?
    ensures Truthy(o.call.value.args.availability)
    ensures Truthy(Get(body, "availability")) ==> o.call.value.args.availability == Get(body, "availability")
    ensures o.call.value.args.imageUrl == ImagePath(file)
    ensures o.call.value.args.pricePerDay == Get(body, "price") && o.call.value.args.fuelType == Get(body, "fuel")
    ensures o.call.value.args == CarRow(Get(body, "name"), Get(body, "model"), Get(body, "year"), Get(body, "price"),
                                        Get(body, "fuel"), Get(body, "transmission"), Get(body, "location"),
                                        Get(body, "seats"), Or(Get(body, "availability"), Bool(true)), ImagePath(file))
    ensures o.response == if dbFails then Reply(500, false) else Reply(201, true)
  {
    var args := CarRow(Get(body, "name"), Get(body, "model"), Get(body, "year"), Get(body, "price"),
                       Get(body, "fuel"), Get(body, "transmission"), Get(body, "location"), Get(body, "seats"),
                       Or(Get(body, "availability"), Bool(true)), ImagePath(file));
    Outcome(Some(Create(args)), if dbFails then Reply(500, false) else Reply(201, true))
  }

  /** A car created through createCar is stored available: whatever falsy
      value the body carried, the column never holds one. */
  lemma CreatedCarsAreAvailable(body: Object, file: Option<string>, dbFails: bool)
    ensures Truthy(Bound(CreateCar(body, file, dbFails).call.value.args).availability)
  {
  }

  /** One row as getCars and getCarById send it: the row's own properties and
      an `image` URL made from `image_url`, or null when that is empty. */
  function WithImage(car: Object): (r: Object)
    ensures r.Keys == car.Keys + {"image"}
    ensures forall k :: k in car && k != "image" ==> r[k] == car[k]
    ensures Truthy(Get(car, "image_url")) ==> r["image"] == Str(Host + Template(Get(car, "image_url")))
    ensures !Truthy(Get(car, "image_url")) ==> r["image"] == Null
  {
    var url := Get(car, "image_url");
    car["image" := if Truthy(url) then Str(Host + Template(url)) else Null]
  }

  /** getCars: every row, in order, with its image URL. */
  function GetCars(dbFails: bool, results: seq<Object>): (o: Outcome<CarCall>)
    ensures o.call == Some(SelectAll)
    ensures dbFails ==> o.response == Reply(500, false)
    ensures !dbFails ==> o.response.status == 200 && |o.response.data| == |results|
    ensures !dbFails ==> forall i :: 0 <= i < |results| ==> o.response.data[i] == WithImage(results[i])
  {
    if dbFails then Outcome(Some(SelectAll), Reply(500, false))
    else Outcome(Some(SelectAll), Response(200, Some(true), [], seq(|results|, i requires 0 <= i < |results| => WithImage(results[i]))))
  }

  /** A stored car keeps its columns in the listing; a car with an image path
      gets the absolute URL. */
  lemma ListedCarKeepsColumns(id: int, row: CarRow, path: string)
    requires row.imageUrl == Str(path) && path != ""
    ensures var listed := GetCars(false, [AsObject(id, row)]).response.data[0];
      && listed["id"] == Num(id) && listed["availability"] == row.availability
      && listed["image"] == Str(Host + path)
  {
  }

  /** getCarById: a store error or no row answers 404. */
  function GetCarById(id: string, dbFails: bool, results: seq<Object>): (o: Outcome<CarCall>)
    ensures o.call == Some(SelectById(id))
    ensures o.response.status == 404 <==> dbFails || results == []
    ensures o.response.status != 404 ==> o.response == Response(200, Some(true), [], [WithImage(results[0])])
  {
    if dbFails || |results| == 0 then Outcome(Some(SelectById(id)), Reply(404, false))
    else Outcome(Some(SelectById(id)), Response(200, Some(true), [], [WithImage(results[0])]))
  }

  /** The fields updateCar copies when they are truthy. */
  const TruthyFields: set<string> := {"name", "model", "year", "price", "fuel", "transmission", "location", "seats"}

  /** The truthy text fields of the body. */
  function TruthyCopy(body: Object): (r: Object)
    ensures forall k :: k in r <==> k in TruthyFields && Truthy(Get(body, k))
    ensures forall k :: k in r ==> r[k] == Get(body, k)
  {
    map k | k in TruthyFields && Truthy(Get(body, k)) :: body[k]
  }

  /** The object updateCar builds: each truthy text field, `availability`
      whenever it is not undefined, and `image` when a file came with it. */
  function CarPatch(body: Object, file: Option<string>): (p: Object)
    ensures forall k :: k in TruthyFields ==> (k in p <==> Truthy(Get(body, k)))
    ensures "availability" in p <==> Get(body, "availability") != Undefined
    ensures "image" in p <==> file.Some?
    ensures p.Keys <= TruthyFields + {"availability", "image"}
    ensures forall k :: k in p && k != "image" ==> p[k] == Get(body, k)
    ensures "image" in p ==> p["image"] == ImagePath(file)
  {
    TruthyCopy(body) + AvailabilityPart(body) + ImagePart(file)
  }

  /** `availability` whenever the body has one that is not undefined. */
  function AvailabilityPart(body: Object): (r: Object)
    ensures r.Keys <= {"availability"}
    ensures "availability" in r <==> Get(body, "availability") != Undefined
    ensures "availability" in r ==> r["availability"] == Get(body, "availability")
  {
    if Get(body, "availability") != Undefined then map["availability" := body["availability"]] else map[]
  }

  /** `image` whenever a file was uploaded. */
  function ImagePart(file: Option<string>): (r: Object)
    ensures r.Keys <= {"image"}
    ensures "image" in r <==> file.Some?
    ensures "image" in r ==> r["image"] == ImagePath(file)
  {
    if file.Some? then map["image" := ImagePath(file)] else map[]
  }

  /** `patch` holds exactly the truthy fields of `body` among `done`. */
  ghost predicate CopiedFrom(patch: Object, body: Object, done: set<string>)
  {
    && (forall k :: k in patch <==> k in done && Truthy(Get(body, k)))
    && (forall k :: k in patch ==> patch[k] == Get(body, k))
  }

  /** One `if (field) updatedCar.field = field;` statement. */
  method CopyIfTruthy(patch: Object, body: Object, ghost done: set<string>, f: string) returns (patch': Object)
    requires CopiedFrom(patch, body, done)
    ensures patch' == if Truthy(Get(body, f)) then patch[f := body[f]] else patch
    ensures CopiedFrom(patch', body, done + {f})
  {
    patch' := patch;
    if Truthy(Get(body, f)) {
      patch' := patch[f := body[f]];
    }
  }

  /** After all eight statements the object is the comprehension of CarPatch. */
  lemma CopiedAll(patch: Object, body: Object)
    requires CopiedFrom(patch, body, TruthyFields)
    ensures patch == TruthyCopy(body)
  {
    assert patch.Keys == TruthyCopy(body).Keys;
  }

  /** The eight `if (field) updatedCar.field = field;` statements. */
  method CopyTruthyFields(body: Object) returns (patch: Object)
    ensures patch == TruthyCopy(body)
  {
    patch := map[];
    ghost var done: set<string> := {};
    patch := CopyIfTruthy(patch, body, done, "name");
    done := done + {"name"};
    patch := CopyIfTruthy(patch, body, done, "model");
    done := done + {"model"};
    patch := CopyIfTruthy(patch, body, done, "year");
    done := done + {"year"};
    patch := CopyIfTruthy(patch, body, done, "price");
    done := done + {"price"};
    patch := CopyIfTruthy(patch, body, done, "fuel");
    done := done + {"fuel"};
    patch := CopyIfTruthy(patch, body, done, "transmission");
    done := done + {"transmission"};
    patch := CopyIfTruthy(patch, body, done, "location");
    done := done + {"location"};
    patch := CopyIfTruthy(patch, body, done, "seats");
    done := done + {"seats"};
    assert done == TruthyFields;
    CopiedAll(patch, body);
  }

  /** `if (availability !== undefined) updatedCar.availability = availability;` */
  method AddAvailability(patch: Object, body: Object) returns (patch': Object)
    ensures patch' == patch + AvailabilityPart(body)
  {
    patch' := patch;
    if Get(body, "availability") != Undefined {
      patch' := patch["availability" := body["availability"]];
    }
  }

  /** `if (image) updatedCar.image = image;` */
  method AddImage(patch: Object, file: Option<string>) returns (patch': Object)
    ensures patch' == patch + ImagePart(file)
  {
    patch' := patch;
    var image := ImagePath(file);
    if Truthy(image) {
      patch' := patch["image" := image];
    }
  }

  /** updateCar's construction of its object: the truthy fields, then
      availability, then the image. */
  method BuildCarPatch(body: Object, file: Option<string>) returns (patch: Object)
    ensures patch == CarPatch(body, file)
  {
    patch := CopyTruthyFields(body);
    patch := AddAvailability(patch, body);
    patch := AddImage(patch, file);
  }

  /** updateCar: the built object is handed to `Car.updateById`; 200, or 500
      on a store error. */
  method UpdateCar(id: string, body: Object, file: Option<string>, dbFails: bool) returns (o: Outcome<CarCall>)
    ensures o.call == Some(UpdateById(id, CarPatch(body, file)))
    ensures o.response == if dbFails then Reply(500, false) else Reply(200, true)
  {
    var patch := BuildCarPatch(body, file);
    o := Outcome(Some(UpdateById(id, patch)), if dbFails then Reply(500, false) else Reply(200, true));
  }

  /** As written, updateCar followed by `Car.updateById` writes NULL into
      image_url even when a file was uploaded, and NULL into every column the
      request left out. */
  lemma UpdateCarLosesImageAndUnsentColumns(body: Object, file: Option<string>)
    ensures Bound(Columns(CarPatch(body, file))).imageUrl == Null
    ensures !Truthy(Get(body, "price")) ==> Bound(Columns(CarPatch(body, file))).pricePerDay == Null
  {
    assert "image_url" !in CarPatch(body, file);
  }

  /** The concrete case: a new name and a new picture for a stored car. */
  lemma RenamingWithPictureClearsColumns(row: CarRow)
    ensures var stored := Bound(Columns(CarPatch(map["name" := Str("Clio")], Some("clio.jpg"))));
      stored.name == Str("Clio") && stored.imageUrl == Null && stored.pricePerDay == Null
  {
    UpdateCarLosesImageAndUnsentColumns(map["name" := Str("Clio")], Some("clio.jpg"));
  }

  /** The update as intended: the columns the object names are written (the
      upload going to image_url), every other column keeps its value. */
  function MergedRow(row: CarRow, patch: Object): (r: CarRow)
    ensures "name" !in patch ==> r.name == row.name
    ensures "price" !in patch ==> r.pricePerDay == row.pricePerDay
    ensures "image" !in patch ==> r.imageUrl == row.imageUrl
    ensures "image" in patch ==> r.imageUrl == Bind(patch["image"])
  {
    CarRow(if "name" in patch then Bind(patch["name"]) else row.name,
           if "model" in patch then Bind(patch["model"]) else row.model,
           if "year" in patch then Bind(patch["year"]) else row.year,
           if "price" in patch then Bind(patch["price"]) else row.pricePerDay,
           if "fuel" in patch then Bind(patch["fuel"]) else row.fuelType,
           if "transmission" in patch then Bind(patch["transmission"]) else row.transmission,
           if "location" in patch then Bind(patch["location"]) else row.location,
           if "seats" in patch then Bind(patch["seats"]) else row.seats,
           if "availability" in patch then Bind(patch["availability"]) else row.availability,
           if "image" in patch then Bind(patch["image"]) else row.imageUrl)
  }

  /** With the merge, an upload is stored and a column the request did not
      send is kept, while every truthy field sent is written. */
  lemma MergedUpdateKeepsAndStores(row: CarRow, body: Object, file: Option<string>)
    ensures file.Some? ==> MergedRow(row, CarPatch(body, file)).imageUrl == Str("/uploads/" + file.value)
    ensures file.None? ==> MergedRow(row, CarPatch(body, file)).imageUrl == row.imageUrl
    ensures !Truthy(Get(body, "price")) ==> MergedRow(row, CarPatch(body, file)).pricePerDay == row.pricePerDay
    ensures Truthy(Get(body, "price")) ==> MergedRow(row, CarPatch(body, file)).pricePerDay == Get(body, "price")
  {
    var p := CarPatch(body, file);
    assert "price" in TruthyFields;
    if Truthy(Get(body, "price")) {
      assert p["price"] == body["price"];
    }
  }

  /** What deleteCar did: its calls, its response, and the stored file it
      asked to unlink, if any. */
  datatype DeleteOutcome = DeleteOutcome(outcome: Outcome<CarCall>, unlinked: Option<Value>)

  /** deleteCar: a failed lookup or no row answers 404 and deletes nothing;
      after a successful delete the row's `image` file is unlinked if the row
      has one. */
  function DeleteCar(id: string, lookupFails: bool, results: seq<Object>, deleteFails: bool): (d: DeleteOutcome)
    ensures d.outcome.call.Some? <==> !lookupFails && results != []
    ensures d.outcome.call.None? ==> d.outcome.response == Reply(404, false)
    ensures d.outcome.call.Some? ==> (d.outcome.call.value == DeleteById(id)
                                     && d.outcome.response == (if deleteFails then Reply(500, false) else Reply(200, true)))
    ensures d.unlinked.Some? <==> d.outcome.call.Some? && !deleteFails && Truthy(Get(results[0], "image"))
    ensures d.unlinked.Some? ==> d.unlinked.value == Get(results[0], "image")
  {
    if lookupFails || |results| == 0 then DeleteOutcome(Outcome(None, Reply(404, false)), None)
    else if deleteFails then DeleteOutcome(Outcome(Some(DeleteById(id)), Reply(500, false)), None)
    else
      var image := Get(results[0], "image");
      DeleteOutcome(Outcome(Some(DeleteById(id)), Reply(200, true)), if Truthy(image) then Some(image) else None)
  }

  /** As written, a row read from the cars table has no `image` property, so
      deleting a car never removes its picture. */
  lemma DeleteCarNeverUnlinks(id: int, row: CarRow, deleteFails: bool)
    ensures DeleteCar(Template(Num(id)), false, [AsObject(id, row)], deleteFails).unlinked.None?
  {
    assert "image" !in AsObject(id, row);
  }

  /** The corrected twin of DeleteCar: the same lookup, delete and responses,
      but the file to unlink is read from `image_url`, the column the table
      has, instead of `image`. */
  function DeleteCarByImageUrl(id: string, lookupFails: bool, results: seq<Object>, deleteFails: bool): (d: DeleteOutcome)
    ensures d.outcome.call.Some? <==> !lookupFails && results != []
    ensures d.outcome.call.None? ==> d.outcome.response == Reply(404, false)
    ensures d.outcome.call.Some? ==> (d.outcome.call.value == DeleteById(id)
                                     && d.outcome.response == (if deleteFails then Reply(500, false) else Reply(200, true)))
    ensures d.unlinked.Some? <==> d.outcome.call.Some? && !deleteFails && Truthy(Get(results[0], "image_url"))
    ensures d.unlinked.Some? ==> d.unlinked.value == Get(results[0], "image_url")
  {
    if lookupFails || |results| == 0 then DeleteOutcome(Outcome(None, Reply(404, false)), None)
    else if deleteFails then DeleteOutcome(Outcome(Some(DeleteById(id)), Reply(500, false)), None)
    else
      var image := Get(results[0], "image_url");
      DeleteOutcome(Outcome(Some(DeleteById(id)), Reply(200, true)), if Truthy(image) then Some(image) else None)
  }

  /** Reading image_url, deleting a car that has a picture removes it. */
  lemma DeleteCarByImageUrlUnlinks(id: int, row: CarRow, path: string)
    requires row.imageUrl == Str(path) && path != ""
    ensures DeleteCarByImageUrl(Template(Num(id)), false, [AsObject(id, row)], false).unlinked == Some(Str(path))
  {
  }

  /** updateAvailability: an undefined availability answers 400 and updates
      nothing. */
  function UpdateAvailability(id: string, availability: Value, dbFails: bool): (o: Outcome<CarCall>)
    ensures o.call.None? <==> availability == Undefined
    ensures o.call.None? ==> o.response == Reply(400, false)
    ensures o.call.Some? ==> o.call.value == SetAvailability(id, availability)
                             && o.response == (if dbFails then Reply(500, false) else Reply(200, true))
  {
    if availability == Undefined then Outcome(None, Reply(400, false))
    else Outcome(Some(SetAvailability(id, availability)), if dbFails then Reply(500, false) else Reply(200, true))
  }
}
