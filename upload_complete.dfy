/** The upload-completion callback of the `imageUploader` route: the first
    upload of an image creates a configuration, the upload of the cropped
    composite records its URL on that configuration. */
module UploadThing {
  import opened Wrappers
  import opened Database

  /** The ORM's failure when `update` finds no row with the id. */
  datatype UploadError = RecordNotFound

  const DEFAULT_DIMENSION: int := 500

  /** `v || 500` for a dimension read from the image metadata: an absent or
      zero value falls back to the default. */
  function OrDefault(v: Option<int>): (r: int)
    ensures r != 0
    ensures v.Some? && v.value != 0 ==> r == v.value
    ensures r != DEFAULT_DIMENSION ==> v == Some(r)
  {
    if v.None? || v.value == 0 then DEFAULT_DIMENSION else v.value
  }

  /** The row created for a first upload: the image URL and its dimensions,
      no cropped image and no options chosen yet. */
  function NewConfiguration(fileUrl: string, width: Option<int>, height: Option<int>): (c: Configuration)
    ensures c.imageUrl == fileUrl && c.croppedImageUrl.None?
    ensures c.width != 0 && c.height != 0
    ensures width.Some? && width.value != 0 ==> c.width == width.value
    ensures height.Some? && height.value != 0 ==> c.height == height.value
    ensures c.color.None? && c.model.None? && c.material.None? && c.finish.None?
  {
    Configuration(fileUrl, None, OrDefault(width), OrDefault(height), None, None, None, None)
  }

  /** `!configId`: an absent id and the empty string both select creation. */
  predicate CreatesConfiguration(configId: Option<string>)
  {
    configId.None? || configId.value == ""
  }

  /** An empty id is handled as a missing one, and only those two create. */
  lemma EmptyIdCreates(t: Tables, configId: Option<string>, fileUrl: string, width: Option<int>, height: Option<int>)
    ensures UploadComplete(t, Some(""), fileUrl, width, height) == UploadComplete(t, None, fileUrl, width, height)
    ensures CreatesConfiguration(configId) <==> configId == None || configId == Some("")
  {
  }

  /** The effect of one callback: the new tables and the id returned. */
  ghost function UploadComplete(t: Tables, configId: Option<string>, fileUrl: string, width: Option<int>, height: Option<int>)
    : (r: (Tables, Result<string, UploadError>))
    ensures r.0.orderPhoneCase == t.orderPhoneCase && r.0.userPhoneCase == t.userPhoneCase
    ensures r.1.Err? <==> !CreatesConfiguration(configId) && configId.value !in t.configuration
    ensures r.1.Err? ==> r.0 == t
    // the update branch answers with the id it was given
    ensures !CreatesConfiguration(configId) && r.1.Ok? ==> r.1.value == configId.value
    // the returned id names a row holding the file: as its image on creation, as its crop on update
    ensures r.1.Ok? ==> r.1.value in r.0.configuration
    ensures r.1.Ok? && CreatesConfiguration(configId) ==> r.0.configuration[r.1.value].imageUrl == fileUrl
    ensures r.1.Ok? && !CreatesConfiguration(configId) ==> r.0.configuration[r.1.value].croppedImageUrl == Some(fileUrl)
  {
    if CreatesConfiguration(configId) then
      var id := KeyOf(t.nextId);
      (t.(configuration := t.configuration[id := NewConfiguration(fileUrl, width, height)], nextId := t.nextId + 1), Ok(id))
    else if configId.value !in t.configuration then
      (t, Err(RecordNotFound))
    else
      var id := configId.value;
      (t.(configuration := t.configuration[id := t.configuration[id].(croppedImageUrl := Some(fileUrl))]), Ok(id))
  }

  /** `onUploadComplete`, after the image's dimensions have been read. */
  method OnUploadComplete(db: Db, configId: Option<string>, fileUrl: string, width: Option<int>, height: Option<int>)
    returns (r: Result<string, UploadError>)
    requires Valid(db.State())
    modifies db
    ensures Valid(db.State())
    ensures (db.State(), r) == UploadComplete(old(db.State()), configId, fileUrl, width, height)
  {
    ghost var before := db.State();
    UploadKeepsValid(before, configId, fileUrl, width, height);
    if configId.None? || configId.value == "" {
      var id := db.CreateConfiguration(NewConfiguration(fileUrl, width, height));
      r := Ok(id);
    } else {
      var found := db.UpdateCroppedImageUrl(configId.value, fileUrl);
      r := if found then Ok(configId.value) else Err(RecordNotFound);
    }
  }

  lemma UploadKeepsValid(t: Tables, configId: Option<string>, fileUrl: string, width: Option<int>, height: Option<int>)
    requires Valid(t)
    ensures Valid(UploadComplete(t, configId, fileUrl, width, height).0)
  {
    var t' := UploadComplete(t, configId, fileUrl, width, height).0;
    if CreatesConfiguration(configId) {
      FreshAfterInsert(t, t');
    }
  }

  /** Without an id, exactly one configuration is added, under a fresh id,
      holding the file URL and the defaulted dimensions and no cropped image. */
  lemma CreateAddsOne(t: Tables, configId: Option<string>, fileUrl: string, width: Option<int>, height: Option<int>)
    requires Valid(t) && CreatesConfiguration(configId)
    ensures var (t', r) := UploadComplete(t, configId, fileUrl, width, height);
      && r.Ok? && r.value !in t.configuration
      && t'.configuration == t.configuration[r.value := NewConfiguration(fileUrl, width, height)]
      && |t'.configuration| == |t.configuration| + 1
      && var c := t'.configuration[r.value];
         c.imageUrl == fileUrl && c.croppedImageUrl == None
         && c.width == OrDefault(width) && c.height == OrDefault(height)
  {
    NextIdIsFresh(t);
  }

  /** With a stored id, only that row's cropped image URL changes. */
  lemma UpdateTouchesOnlyCroppedUrl(t: Tables, id: string, fileUrl: string, width: Option<int>, height: Option<int>)
    requires id != "" && id in t.configuration
    ensures var (t', r) := UploadComplete(t, Some(id), fileUrl, width, height);
      && r == Ok(id)
      && t'.configuration.Keys == t.configuration.Keys
      && t'.configuration[id] == t.configuration[id].(croppedImageUrl := Some(fileUrl))
      && (forall k :: k in t.configuration && k != id ==> t'.configuration[k] == t.configuration[k])
      && t' == t.(configuration := t'.configuration)
  {
  }

  /** Worked cases: an 800 by 1600 image keeps its size, a missing height
      and a zero width fall back to 500, and a given id is echoed back. */
  lemma Scenarios(t: Tables, fileUrl: string)
    requires "abc123" in t.configuration
    ensures UploadComplete(t, None, fileUrl, Some(800), Some(1600)).0.configuration[KeyOf(t.nextId)].width == 800
    ensures UploadComplete(t, None, fileUrl, Some(800), Some(1600)).0.configuration[KeyOf(t.nextId)].height == 1600
    ensures NewConfiguration(fileUrl, Some(0), None) == Configuration(fileUrl, None, 500, 500, None, None, None, None)
    ensures UploadComplete(t, Some("abc123"), fileUrl, None, None).1 == Ok("abc123")
  {
  }
}
