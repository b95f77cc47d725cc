/**
 * The album edit screen: an editable record (title, cover image and the
 * ordered list of image URIs) changed by the screen's handlers, and the save
 * handler that validates it and sends it to `PUT /edit-album`.  The image
 * picker, the token storage and the network are inputs of the handlers.
 */
module EditAlbum {
  import opened Wrappers
  import opened Alerts

  // ---------------------------------------------------------------------
  // List operations behind the handlers
  // ---------------------------------------------------------------------

  /** Number of occurrences of `x` in `s`. */
  function Count(s: seq<string>, x: string): (n: nat) {
    if s == [] then 0 else (if s[0] == x then 1 else 0) + Count(s[1..], x)
  }

  /** `s.filter(y => y !== x)`: `s` with every occurrence of `x` removed. */
  function Without(s: seq<string>, x: string): (r: seq<string>)
    ensures x !in r
    ensures |r| == |s| - Count(s, x)
    ensures forall y :: y in r ==> y in s
  {
    if s == [] then []
    else if s[0] == x then Without(s[1..], x)
    else [s[0]] + Without(s[1..], x)
  }

  /** Deleting `x` keeps every other value as often as it was there. */
  lemma {:induction false} WithoutKeepsOthers(s: seq<string>, x: string, y: string)
    requires y != x
    ensures Count(Without(s, x), y) == Count(s, y)
  {
    if s != [] {
      WithoutKeepsOthers(s[1..], x, y);
      if s[0] != x {
        assert ([s[0]] + Without(s[1..], x))[1..] == Without(s[1..], x);
      }
    }
  }

  /** Filtering distributes over concatenation. */
  lemma {:induction false} WithoutAppend(a: seq<string>, b: seq<string>, x: string)
    ensures Without(a + b, x) == Without(a, x) + Without(b, x)
  {
    if a != [] {
      assert (a + b)[1..] == a[1..] + b;
      WithoutAppend(a[1..], b, x);
    } else {
      assert a + b == b;
    }
  }

  /** Deleting a URI that is not in the list leaves the list as it was. */
  lemma {:induction false} WithoutAbsent(s: seq<string>, x: string)
    requires x !in s
    ensures Without(s, x) == s
  {
    if s != [] {
      assert s[0] != x;
      WithoutAbsent(s[1..], x);
    }
  }

  /** Deleting twice is deleting once. */
  lemma {:induction false} WithoutIdempotent(s: seq<string>, x: string)
    ensures Without(Without(s, x), x) == Without(s, x)
  {
    WithoutAbsent(Without(s, x), x);
  }

  /** Strictly increasing positions. */
  predicate Increasing(p: seq<nat>) {
    forall k, l :: 0 <= k < l < |p| ==> p[k] < p[l]
  }

  /** The elements left after a deletion keep their original relative
      order: they sit at strictly increasing positions of `s`.  With
      `|Without(s, x)| == |s| - Count(s, x)` these are all the positions of
      `s` that do not hold `x`. */
  lemma {:induction false} WithoutKeepsOrder(s: seq<string>, x: string) returns (p: seq<nat>)
    ensures |p| == |Without(s, x)| && Increasing(p)
    ensures forall k :: 0 <= k < |p| ==> p[k] < |s| && s[p[k]] == Without(s, x)[k]
  {
    if s == [] {
      return [];
    }
    var q := WithoutKeepsOrder(s[1..], x);
    var shifted := Shift(s, q);
    if s[0] == x {
      p := shifted;
    } else {
      p := [0] + shifted;
      PrependZero(shifted);
      var w := Without(s, x);
      assert w == [s[0]] + Without(s[1..], x);
      forall k | 0 <= k < |p| ensures p[k] < |s| && s[p[k]] == w[k] {
        if k > 0 {
          assert p[k] == shifted[k - 1];
        }
      }
    }
  }

  /** Position 0 can go in front of increasing positive positions. */
  lemma PrependZero(q: seq<nat>)
    requires Increasing(q)
    requires forall k :: 0 <= k < |q| ==> 0 < q[k]
    ensures Increasing([0] + q)
  {
    var p := [0] + q;
    forall k, l | 0 <= k < l < |p| ensures p[k] < p[l] {
      if k > 0 {
        assert p[k] == q[k - 1] && p[l] == q[l - 1];
      } else {
        assert p[l] == q[l - 1];
      }
    }
  }

  /** Positions in `s[1..]` moved to the matching positions in `s`. */
  function Shift(s: seq<string>, q: seq<nat>): (r: seq<nat>)
    requires s != [] && Increasing(q)
    requires forall k :: 0 <= k < |q| ==> q[k] < |s| - 1
    ensures |r| == |q| && Increasing(r)
    ensures forall k :: 0 <= k < |r| ==> r[k] == q[k] + 1 && r[k] < |s| && s[r[k]] == s[1..][q[k]]
    ensures forall k :: 0 <= k < |r| ==> 0 < r[k]
  {
    seq(|q|, k requires 0 <= k < |q| => q[k] + 1)
  }

  // ---------------------------------------------------------------------
  // Handler inputs and outputs
  // ---------------------------------------------------------------------

  /** An asset chosen in the image picker. */
  datatype Asset = Asset(uri: string)

  /** What `ImagePicker.launchImageLibraryAsync` resolves to. */
  datatype PickerResult = Canceled | Picked(assets: seq<Asset>)

  /** `assets.map(asset => asset.uri)`. */
  function Uris(assets: seq<Asset>): (r: seq<string>)
    ensures |r| == |assets|
    ensures forall i :: 0 <= i < |assets| ==> r[i] == assets[i].uri
  {
    seq(|assets|, i requires 0 <= i < |assets| => assets[i].uri)
  }

  /** The JSON body of `PUT /edit-album`. */
  datatype SavePayload = SavePayload(id: string, title: string, coverImage: string, images: seq<string>)

  /** A request as sent: the bearer token and the body. */
  datatype SaveRequest = SaveRequest(bearer: string, payload: SavePayload)

  /** How the request ended: `fetch` or `response.json()` threw, or the
      server answered (with `ok` and the body's `error` field). */
  datatype SaveReply = SaveThrew | SaveAnswered(ok: bool, error: Option<string>)

  /** What the save handler ends with: an alert and, on success, the
      parameters of the navigation to the album view. */
  datatype SaveOutcome = SaveOutcome(notice: Notice, navigateTo: Option<SavePayload>)

  const MissingFieldsNotice := Notice("Error", "Please enter an album title and select a cover image")
  const MissingTokenNotice := Notice("Error", "Authentication token is missing. Please log in again.")
  const SavedNotice := Notice("Success", "Album updated successfully!")

  /** The guards of the save handler and the request they let through.  A
      token is usable when present and non-empty and when `jwtDecode`
      accepts it (`tokenDecodes`); a token it rejects ends in the generic
      error, with nothing sent. */
  function PrepareSave(id: string, title: string, coverImage: string, images: seq<string>,
                       token: Option<string>, tokenDecodes: bool): (r: Result<SaveRequest, Notice>)
    ensures r.Ok? <==> title != "" && coverImage != "" && token.Some? && token.value != "" && tokenDecodes
    ensures title == "" || coverImage == "" ==> r == Err(MissingFieldsNotice)
    ensures title != "" && coverImage != "" && (token == None || token == Some("")) ==> r == Err(MissingTokenNotice)
    ensures title != "" && coverImage != "" && token.Some? && token.value != "" && !tokenDecodes ==>
              r == Err(GenericErrorNotice)
    ensures r.Ok? ==> r.value.bearer == token.value
                      && r.value.payload == SavePayload(id, title, coverImage, images)
  {
    if title == "" || coverImage == "" then Err(MissingFieldsNotice)
    else if token == None || token.value == "" then Err(MissingTokenNotice)
    else if !tokenDecodes then Err(GenericErrorNotice)
    else Ok(SaveRequest(token.value, SavePayload(id, title, coverImage, images)))
  }

  /** The alert and navigation once the request has been sent. */
  function SaveFinish(payload: SavePayload, reply: SaveReply): (o: SaveOutcome)
    ensures o.navigateTo.Some? <==> reply.SaveAnswered? && reply.ok
    ensures o.navigateTo.Some? ==> o.navigateTo.value == payload && o.notice == SavedNotice
    ensures reply.SaveAnswered? && !reply.ok ==>
              o.notice == Notice("Error", OrElse(reply.error, "Failed to update album"))
    ensures reply.SaveThrew? ==> o == SaveOutcome(GenericErrorNotice, None)
  {
    match reply
    case SaveThrew => SaveOutcome(GenericErrorNotice, None)
    case SaveAnswered(ok, error) =>
      if ok then SaveOutcome(SavedNotice, Some(payload))
      else SaveOutcome(Notice("Error", OrElse(error, "Failed to update album")), None)
  }

  // ---------------------------------------------------------------------
  // The screen state
  // ---------------------------------------------------------------------

  class AlbumEditor {
    /** The album being edited, from the route parameters. */
    const id: string
    var title: string
    var coverImage: string
    var images: seq<string>

    /** The screen opens on the album's current values. */
    constructor (id: string, title: string, coverImage: string, images: seq<string>)
      ensures this.id == id && this.title == title
      ensures this.coverImage == coverImage && this.images == images
    {
      this.id := id;
      this.title := title;
      this.coverImage := coverImage;
      this.images := images;
    }

    /** Typing in the title field. */
    method SetTitle(t: string)
      modifies this
      ensures title == t
      ensures coverImage == old(coverImage) && images == old(images)
    {
      title := t;
    }

    /** `handlePickCoverImage`: the first picked asset becomes the cover.  A
        cancelled picker changes nothing; so does a result with no asset,
        on which `result.assets[0].uri` throws before the setter runs. */
    method PickCoverImage(result: PickerResult)
      modifies this
      ensures coverImage == if result.Picked? && |result.assets| > 0 then result.assets[0].uri
                            else old(coverImage)
      ensures title == old(title) && images == old(images)
    {
      if result.Picked? && |result.assets| > 0 {
        coverImage := result.assets[0].uri;
      }
    }

    /** `handleAddImages`: the picked URIs are appended in picker order. */
    method AddImages(result: PickerResult)
      modifies this
      ensures images == if result.Picked? then old(images) + Uris(result.assets) else old(images)
      ensures |images| == |old(images)| + (if result.Picked? then |result.assets| else 0)
      ensures title == old(title) && coverImage == old(coverImage)
    {
      if result.Picked? {
        images := images + Uris(result.assets);
      }
    }

    /** `handleDeleteImage`: every occurrence of the URI is removed. */
    method DeleteImage(uri: string)
      modifies this
      ensures images == Without(old(images), uri)
      ensures uri !in images && |images| == |old(images)| - Count(old(images), uri)
      ensures title == old(title) && coverImage == old(coverImage)
    {
      images := Without(images, uri);
    }

    /** `handleSave`: the state is only read.  `token` is what the token
        storage holds, `reply` how the request ended when one is sent. */
    method Save(token: Option<string>, tokenDecodes: bool, reply: SaveReply)
      returns (sent: Option<SaveRequest>, outcome: SaveOutcome)
      ensures sent.Some? <==> PrepareSave(id, title, coverImage, images, token, tokenDecodes).Ok?
      ensures sent.Some? ==> sent.value == PrepareSave(id, title, coverImage, images, token, tokenDecodes).value
      ensures sent.Some? ==> token.Some? && sent.value.bearer == token.value
      ensures sent.Some? ==> sent.value.payload == SavePayload(id, title, coverImage, images)
                             && outcome == SaveFinish(sent.value.payload, reply)
      ensures sent.None? ==> outcome == SaveOutcome(PrepareSave(id, title, coverImage, images, token, tokenDecodes).error, None)
    {
      var prepared := PrepareSave(id, title, coverImage, images, token, tokenDecodes);
      if prepared.Err? {
        return None, SaveOutcome(prepared.error, None);
      }
      sent := Some(prepared.value);
      outcome := SaveFinish(prepared.value.payload, reply);
    }
  }
}
