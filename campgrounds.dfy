/**
 * The campground handlers of routes/campgrounds.js: the search rule of the
 * index page, and the CREATE and UPDATE handlers with the guards in front of
 * them. The geocoder and the image host are foreign services; their answers
 * come in as function parameters, applied to what the handler hands them.
 */
module Campgrounds {
  import opened Http
  import Middleware
  import ImageFilter
  import RegexEscape

  type CampgroundId = nat
  type CommentId = nat

  /** The owner, by id and by the username copied at creation. */
  datatype Author = Author(id: Middleware.UserId, username: string)

  datatype Campground = Campground(
    name: string,
    price: string,
    image: string,
    imageID: string,
    description: string,
    location: string,
    lat: real,
    lng: real,
    author: Author,
    comments: seq<CommentId>)

  /** A file multer has received: the client's name for it and where it is stored. */
  datatype Upload = Upload(originalName: string, path: string)

  /** One answer of the geocoder. */
  datatype Place = Place(latitude: real, longitude: real, formattedAddress: string)

  /** What the image host answers to an upload. */
  datatype Hosted = Hosted(secureUrl: string, publicId: string)

  /** The fields CREATE reads from `req.body`. */
  datatype CreateForm = CreateForm(
    name: string, price: string, image: string, imageID: string, description: string, location: string)

  /** The fields UPDATE reads: `req.body.campground.{name,price,description}`
      and `req.body.location`. */
  datatype EditForm = EditForm(name: string, price: string, description: string, location: string)

  /** What a handler leads to: a record to save, or a response without saving. */
  datatype Outcome = Stored(campground: Campground) | Refused(response: Response)

  const InvalidAddress := "Invalid address"
  const NoMatch := "Campground no found"
  const UpdatedText := "Your campground successfully updated!"
  /** The TypeErrors the handlers run into. The wording assumes Node.js
      before 16.9 (V8 before 9.3); later engines say "Cannot read properties
      of undefined (reading 'path')". */
  const NoFile := "Cannot read property 'path' of undefined"
  const NoPlace := "Cannot read property 'latitude' of undefined"

  /** `upload.single('image')` with `imageFilter`: a rejected file makes
      multer pass the filter's error on to Express. */
  function MulterFilter(file: Option<Upload>): (r: Response)
    ensures r == Next <==> file.None? || ImageFilter.Filter(file.value.originalName) == ImageFilter.Accept
    ensures r != Next ==> r == Fail(ImageFilter.OnlyImages)
  {
    if file.Some? && ImageFilter.Filter(file.value.originalName) != ImageFilter.Accept then Fail(ImageFilter.OnlyImages)
    else Next
  }

  /** `GET /campgrounds`: a non-empty search text is escaped into a
      case-insensitive pattern; a search that matches nothing is refused.
      A failing query is only logged, so no answer is sent. */
  function Index(search: string, matching: string -> Option<seq<Campground>>, all: Option<seq<Campground>>): (r: Response)
    ensures search != "" && matching(RegexEscape.Escape(search)) == Some([]) <==>
              r == Redirect(Some(Flash(Error, NoMatch)), Back)
    ensures r == NoReply <==> (if search != "" then matching(RegexEscape.Escape(search)) else all).None?
    ensures r == Render("campgrounds/index", None) || r == NoReply || r == Redirect(Some(Flash(Error, NoMatch)), Back)
  {
    var found := if search != "" then matching(RegexEscape.Escape(search)) else all;
    if found.None? then NoReply
    else if search != "" && |found.value| < 1 then Redirect(Some(Flash(Error, NoMatch)), Back)
    else Render("campgrounds/index", None)
  }

  /** The CREATE handler after its guards: geocode the address, upload the
      image, build the record. */
  function Creation(user: Middleware.Identity, form: CreateForm, file: Option<Upload>,
                    geocode: string -> Result<seq<Place>>, upload: string -> Result<Hosted>): (o: Outcome)
    // a geocoder error or an empty answer stores nothing
    ensures (geocode(form.location).Err? || geocode(form.location).value == []) ==>
              o == Refused(Redirect(Some(Flash(Error, InvalidAddress)), Back))
    // a record is stored iff the address was found and an image was uploaded
    ensures o.Stored? <==>
              geocode(form.location).Ok? && geocode(form.location).value != [] &&
              file.Some? && upload(file.value.path).Ok?
    ensures o.Stored? ==>
              var place, hosted, c := geocode(form.location).value[0], upload(file.value.path).value, o.campground;
              && c.author == Author(user.id, user.username)
              && c.comments == []
              && c.name == form.name && c.price == form.price && c.description == form.description
              && c.location == place.formattedAddress && c.lat == place.latitude && c.lng == place.longitude
              && c.image == hosted.secureUrl && c.imageID == hosted.publicId
    ensures o.Refused? ==> o.response.Redirect? || o.response == Crash(NoFile)
  {
    var author := Author(user.id, user.username);
    match geocode(form.location)
    case Err(_) => Refused(Redirect(Some(Flash(Error, InvalidAddress)), Back))
    case Ok(places) =>
      if places == [] then Refused(Redirect(Some(Flash(Error, InvalidAddress)), Back))
      else
        var record := Campground(form.name, form.price, form.image, form.imageID, form.description,
                                 places[0].formattedAddress, places[0].latitude, places[0].longitude, author, []);
        if file.None? then Refused(Crash(NoFile))
        else match upload(file.value.path)
          case Err(message) => Refused(Redirect(Some(Flash(Error, message)), Back))
          case Ok(hosted) => Stored(record.(image := hosted.secureUrl, imageID := hosted.publicId))
  }

  /** The UPDATE handler after its guards, on the stored record `c`. */
  function Edit(c: Campground, form: EditForm, file: Option<Upload>, destroy: string -> Option<string>,
                upload: string -> Result<Hosted>, geocode: string -> Result<seq<Place>>): (o: Outcome)
    ensures o.Refused? ==> o.response.Redirect? && o.response.to == Back &&
                           o.response.flash.Some? && o.response.flash.value.level == Error
    ensures o.Stored? ==>
              var d := o.campground;
              // the form always overwrites these three fields
              && d.name == form.name && d.price == form.price && d.description == form.description
              // the owner and the comments never change
              && d.author == c.author && d.comments == c.comments
              // the image changes only with an uploaded file, and then to the hosted one
              && (file.None? ==> d.image == c.image && d.imageID == c.imageID)
              && (file.Some? ==> upload(file.value.path).Ok? &&
                                 d.image == upload(file.value.path).value.secureUrl &&
                                 d.imageID == upload(file.value.path).value.publicId)
              // the place changes only when the submitted location differs from the stored one
              && (form.location == c.location ==> d.location == c.location && d.lat == c.lat && d.lng == c.lng)
              && (form.location != c.location ==>
                    geocode(form.location).Ok? && geocode(form.location).value != [] &&
                    d.location == geocode(form.location).value[0].formattedAddress &&
                    d.lat == geocode(form.location).value[0].latitude &&
                    d.lng == geocode(form.location).value[0].longitude)
    // nothing is saved exactly when the image host or the geocoder fails
    ensures o.Refused? <==>
              || (file.Some? && (destroy(c.imageID).Some? || upload(file.value.path).Err?))
              || (form.location != c.location &&
                  (geocode(form.location).Err? || geocode(form.location).value == []))
  {
    var image :=
      if file.None? then Ok(Hosted(c.image, c.imageID))
      else if destroy(c.imageID).Some? then Err(destroy(c.imageID).value)
      else upload(file.value.path);
    var place :=
      if form.location == c.location then Ok(Place(c.lat, c.lng, c.location))
      else match geocode(form.location)
        case Err(message) => Err(message)
        case Ok(places) => if places == [] then Err(NoPlace) else Ok(places[0]);
    if image.Err? then Refused(Redirect(Some(Flash(Error, image.message)), Back))
    else if place.Err? then Refused(Redirect(Some(Flash(Error, place.message)), Back))
    else
      Stored(c.(image := image.value.secureUrl, imageID := image.value.publicId,
                location := place.value.formattedAddress, lat := place.value.latitude, lng := place.value.longitude,
                name := form.name, price := form.price, description := form.description))
  }

  /** An edit never hands a campground to someone else: whoever could pass
      the ownership check before can pass it after, and nobody else. */
  lemma EditKeepsOwnership(c: Campground, form: EditForm, file: Option<Upload>, destroy: string -> Option<string>,
                           upload: string -> Result<Hosted>, geocode: string -> Result<seq<Place>>,
                           user: Option<Middleware.Identity>)
    requires Edit(c, form, file, destroy, upload, geocode).Stored?
    ensures var d := Edit(c, form, file, destroy, upload, geocode).campground;
            Middleware.CheckCampgroundOwnership(user, Middleware.Found(d.author.id)) ==
            Middleware.CheckCampgroundOwnership(user, Middleware.Found(c.author.id))
  {
  }

  /** The guards in front of CREATE: `router.use(isLoggedIn, isPaid)`, the
      route's own `isLoggedIn`, then the upload filter. */
  function CreateGuards(req: Middleware.Request, file: Option<Upload>): (r: Response)
    ensures r == Next <==> req.user.Some? && req.user.value.isPaid && MulterFilter(file) == Next
  {
    var paid := Middleware.LoggedInAndPaid(req);
    if paid != Next then paid
    else
      var login := Middleware.IsLoggedIn(req);
      if login != Next then login else MulterFilter(file)
  }

  /** The guards in front of UPDATE: `router.use(isLoggedIn, isPaid)`,
      `checkCampgroundOwnership`, then the upload filter. */
  function UpdateGuards(req: Middleware.Request, lookup: Middleware.Lookup, file: Option<Upload>): (r: Response)
    ensures r == Next <==>
              && req.user.Some? && req.user.value.isPaid
              && lookup.Found? && (lookup.ownerId == req.user.value.id || req.user.value.isAdmin)
              && MulterFilter(file) == Next
  {
    var paid := Middleware.LoggedInAndPaid(req);
    if paid != Next then paid
    else
      var owner := Middleware.CheckCampgroundOwnership(req.user, lookup);
      if owner != Next then owner else MulterFilter(file)
  }

  class CampgroundStore {
    var campgrounds: map<CampgroundId, Campground>
    var nextId: CampgroundId

    ghost predicate Valid()
      reads this
    {
      forall k :: k in campgrounds ==> k < nextId
    }

    constructor ()
      ensures Valid() && campgrounds == map[]
    {
      campgrounds := map[];
      nextId := 0;
    }

    /** What `findById` finds of a campground's owner. */
    function OwnerOf(id: CampgroundId): Middleware.Lookup
      reads this
    {
      if id in campgrounds then Middleware.Found(campgrounds[id].author.id) else Middleware.Missing
    }

    /** `POST /campgrounds`. */
    method Create(req: Middleware.Request, form: CreateForm, file: Option<Upload>,
                  geocode: string -> Result<seq<Place>>, upload: string -> Result<Hosted>)
      returns (resp: Response, id: Option<CampgroundId>)
      requires Valid()
      modifies this
      ensures Valid()
      ensures CreateGuards(req, file) != Next ==>
                campgrounds == old(campgrounds) && id == None && resp == CreateGuards(req, file)
      ensures CreateGuards(req, file) == Next ==>
                match Creation(req.user.value, form, file, geocode, upload)
                case Refused(r) => campgrounds == old(campgrounds) && id == None && resp == r
                case Stored(c) =>
                  && id == Some(old(nextId)) && old(nextId) !in old(campgrounds)
                  && campgrounds == old(campgrounds)[old(nextId) := c]
                  && resp == Redirect(None, Path("/campgrounds"))
    {
      var guard := CreateGuards(req, file);
      if guard != Next {
        return guard, None;
      }
      var user := req.user.value;
      var author := Author(user.id, user.username);
      var geo := geocode(form.location);
      if geo.Err? || |geo.value| == 0 {
        return Redirect(Some(Flash(Error, InvalidAddress)), Back), None;
      }
      var place := geo.value[0];
      var record := Campground(form.name, form.price, form.image, form.imageID, form.description,
                               place.formattedAddress, place.latitude, place.longitude, author, []);
      if file.None? {
        return Crash(NoFile), None;
      }
      var hosted := upload(file.value.path);
      if hosted.Err? {
        return Redirect(Some(Flash(Error, hosted.message)), Back), None;
      }
      record := record.(image := hosted.value.secureUrl);
      record := record.(imageID := hosted.value.publicId);
      campgrounds := campgrounds[nextId := record];
      id := Some(nextId);
      nextId := nextId + 1;
      resp := Redirect(None, Path("/campgrounds"));
    }

    /** `PUT /campgrounds/:id`: the fetched record's fields are replaced one
        after the other, then saved; a failure on the way saves nothing. */
    method Update(req: Middleware.Request, id: CampgroundId, form: EditForm, file: Option<Upload>,
                  destroy: string -> Option<string>, upload: string -> Result<Hosted>,
                  geocode: string -> Result<seq<Place>>)
      returns (resp: Response)
      requires Valid()
      modifies this
      ensures Valid() && nextId == old(nextId)
      ensures UpdateGuards(req, old(OwnerOf(id)), file) != Next ==>
                campgrounds == old(campgrounds) && resp == UpdateGuards(req, old(OwnerOf(id)), file)
      ensures UpdateGuards(req, old(OwnerOf(id)), file) == Next ==>
                id in old(campgrounds) &&
                match Edit(old(campgrounds[id]), form, file, destroy, upload, geocode)
                case Refused(r) => campgrounds == old(campgrounds) && resp == r
                case Stored(c) =>
                  campgrounds == old(campgrounds)[id := c] &&
                  resp == Redirect(Some(Flash(Success, UpdatedText)), CampgroundPage(id))
    {
      var guard := UpdateGuards(req, OwnerOf(id), file);
      if guard != Next {
        return guard;
      }
      var campground := campgrounds[id];
      if file.Some? {
        var destroyed := destroy(campground.imageID);
        if destroyed.Some? {
          return Redirect(Some(Flash(Error, destroyed.value)), Back);
        }
        var hosted := upload(file.value.path);
        if hosted.Err? {
          return Redirect(Some(Flash(Error, hosted.message)), Back);
        }
        campground := campground.(image := hosted.value.secureUrl);
        campground := campground.(imageID := hosted.value.publicId);
      }
      if form.location != campground.location {
        var geo := geocode(form.location);
        if geo.Err? {
          return Redirect(Some(Flash(Error, geo.message)), Back);
        }
        if |geo.value| == 0 {
          return Redirect(Some(Flash(Error, NoPlace)), Back);
        }
        campground := campground.(lat := geo.value[0].latitude);
        campground := campground.(lng := geo.value[0].longitude);
        campground := campground.(location := geo.value[0].formattedAddress);
      }
      campground := campground.(name := form.name);
      campground := campground.(price := form.price);
      campground := campground.(description := form.description);
      campgrounds := campgrounds[id := campground];
      resp := Redirect(Some(Flash(Success, UpdatedText)), CampgroundPage(id));
    }
  }
}
