/** AddFragment.java: the new-review form. The user picks up to three
    photos, a restaurant from a spinner, a visit date, a caption, a
    description and a star rating; on submit the form is checked field by
    field, the photos are uploaded one after the other and the review is
    saved with their download URLs in the order the photos were picked.
    Every remote answer (the restaurant query, each upload, the save) is a
    parameter, and the clock is `now`. */
module AddReview {
  import opened Common
  import opened Models
  import opened ReviewData
  import opened ReviewStore

  const PICK_IMAGE_REQUEST := 1
  /** `Activity.RESULT_OK`. */
  const RESULT_OK := -1
  /** The most photos a review takes. */
  const MAX_IMAGES := 3
  const SELECT_RESTAURANT := "Select Restaurant"

  function Min(a: int, b: int): int { if a < b then a else b }

  // ---------------------------------------------------------------------
  // Restaurants and the spinner

  /** A document of the `restaurants` collection and what `toObject` makes
      of it (None for null). */
  datatype RestaurantDoc = RestaurantDoc(id: string, data: Option<Restaurant>)

  function Readable(): RestaurantDoc -> bool { (d: RestaurantDoc) => d.data.Some? }

  /** The restaurant of a readable document, with the document's id set. */
  function RestaurantOf(d: RestaurantDoc): (r: Restaurant)
    requires d.data.Some?
    ensures r.id == Some(d.id)
  {
    d.data.value.(id := Some(d.id))
  }

  /** The kept documents are readable. */
  lemma KeptReadable(docs: seq<RestaurantDoc>)
    ensures forall i :: 0 <= i < |Keep(docs, Readable())| ==> Keep(docs, Readable())[i].data.Some?
  {
    var kept := Keep(docs, Readable());
    forall i | 0 <= i < |kept|
      ensures kept[i].data.Some?
    {
      assert kept[i] in kept;
      KeepMembers(docs, Readable(), kept[i]);
    }
  }

  /** The list `loadRestaurants` builds: the readable documents in the
      query's order, each with its id. */
  function RestaurantsOf(docs: seq<RestaurantDoc>): (r: seq<Restaurant>)
    ensures |r| == |Keep(docs, Readable())|
    ensures forall i :: 0 <= i < |r| ==>
      Keep(docs, Readable())[i].data.Some? && r[i] == RestaurantOf(Keep(docs, Readable())[i])
  {
    var kept := Keep(docs, Readable());
    KeptReadable(docs);
    seq(|kept|, i requires 0 <= i < |kept| => RestaurantOf(kept[i]))
  }

  /** Every readable document is offered, under its own id. */
  lemma {:induction false} EveryReadableOffered(docs: seq<RestaurantDoc>, d: RestaurantDoc)
    requires d in docs && d.data.Some?
    ensures RestaurantOf(d) in RestaurantsOf(docs)
  {
    var kept := Keep(docs, Readable());
    KeepMembers(docs, Readable(), d);
    var k :| 0 <= k < |kept| && kept[k] == d;
    assert RestaurantsOf(docs)[k] == RestaurantOf(d);
  }

  /** The loop of `loadRestaurants`: a null `toObject` is skipped. */
  method ParseRestaurants(docs: seq<RestaurantDoc>) returns (restaurants: seq<Restaurant>)
    ensures restaurants == RestaurantsOf(docs)
  {
    restaurants := [];
    var i := 0;
    while i < |docs|
      invariant 0 <= i <= |docs|
      invariant restaurants == RestaurantsOf(docs[..i])
    {
      KeepStep(docs, i, Readable());
      KeptReadable(docs[..i]);
      KeptReadable(docs[..i + 1]);
      if docs[i].data.Some? {
        restaurants := restaurants + [RestaurantOf(docs[i])];
      }
      i := i + 1;
    }
    assert docs[..i] == docs;
  }

  /** `setupRestaurantSpinner`: a prompt row, then one row per restaurant
      with its name (a null name is shown as the adapter renders null). */
  function SpinnerNames(restaurants: seq<Restaurant>): (r: seq<Option<string>>)
    ensures |r| == |restaurants| + 1 && r[0] == Some(SELECT_RESTAURANT)
    ensures forall p :: 0 < p < |r| ==> r[p] == restaurants[p - 1].name
  {
    [Some(SELECT_RESTAURANT)] + seq(|restaurants|, i requires 0 <= i < |restaurants| => restaurants[i].name)
  }

  /** The restaurant a spinner row selects: none for the prompt row, else
      the restaurant whose name the row shows. */
  function SelectedAt(restaurants: seq<Restaurant>, position: int): (r: Option<Restaurant>)
    requires 0 <= position <= |restaurants|
    ensures r.None? <==> position == 0
    ensures r.Some? ==>
      (r.value == restaurants[position - 1] && r.value.name == SpinnerNames(restaurants)[position])
  {
    if position > 0 then Some(restaurants[position - 1]) else None
  }

  // ---------------------------------------------------------------------
  // The picked photos

  /** What the picker hands back: several items (`getClipData`) or a single
      URI (`getData`), either possibly absent. */
  datatype PickerData = PickerData(clip: Option<seq<string>>, uri: Option<string>)

  /** The selection a picker answer makes: the first three items of a
      multiple choice in their order, or the single URI, or nothing. */
  function Selection(d: PickerData): (r: seq<string>)
    ensures |r| <= MAX_IMAGES
    ensures d.clip.Some? ==> |r| == Min(|d.clip.value|, MAX_IMAGES) && r <= d.clip.value
    ensures d.clip.None? && d.uri.Some? ==> r == [d.uri.value]
    ensures d.clip.None? && d.uri.None? ==> r == []
  {
    if d.clip.Some? then d.clip.value[..Min(|d.clip.value|, MAX_IMAGES)]
    else if d.uri.Some? then [d.uri.value]
    else []
  }

  /** The loop over the clip items, stopping at the third. */
  method PickClipItems(items: seq<string>) returns (uris: seq<string>)
    ensures uris == items[..Min(|items|, MAX_IMAGES)]
  {
    uris := [];
    var i := 0;
    var n := Min(|items|, MAX_IMAGES);
    while i < n
      invariant 0 <= i <= n
      invariant uris == items[..i]
    {
      assert items[..i + 1] == items[..i] + [items[i]];
      uris := uris + [items[i]];
      i := i + 1;
    }
  }

  // ---------------------------------------------------------------------
  // Validation

  /** The form's contents: the two text fields, the rating bar, the spinner's
      restaurant, the visit date and the picked photos. */
  datatype Form = Form(caption: string, description: string, rating: real,
                       restaurant: Option<Restaurant>, date: Long, images: seq<string>)

  /** `clearForm`: empty texts, no stars, the prompt row, today, no photos. */
  function Cleared(now: Long): Form
  {
    Form("", "", 0.0, None, now, [])
  }

  /** The first check `validateInput` fails. */
  datatype Invalid = NoCaption | NoDescription | NoRestaurant | NoRating

  /** `validateInput`: caption, description, restaurant, rating, in that
      order; the first that fails is reported. */
  function Validate(f: Form): (r: Option<Invalid>)
    ensures r == Some(NoCaption) <==> JavaTrim(f.caption) == []
    ensures r == Some(NoDescription) <==> JavaTrim(f.caption) != [] && JavaTrim(f.description) == []
    ensures r == Some(NoRestaurant) <==>
      JavaTrim(f.caption) != [] && JavaTrim(f.description) != [] && f.restaurant.None?
    ensures r.None? <==>
      JavaTrim(f.caption) != [] && JavaTrim(f.description) != [] && f.restaurant.Some? && f.rating != 0.0
  {
    if JavaTrim(f.caption) == [] then Some(NoCaption)
    else if JavaTrim(f.description) == [] then Some(NoDescription)
    else if f.restaurant.None? then Some(NoRestaurant)
    else if f.rating == 0.0 then Some(NoRating)
    else None
  }

  /** A caption of blanks only is no caption. */
  lemma BlankCaptionRejected(f: Form)
    requires forall i :: 0 <= i < |f.caption| ==> JavaSpace(f.caption[i])
    ensures Validate(f) == Some(NoCaption)
  {
    TrimEmptyIffBlank(f.caption, JavaSpace);
  }

  // ---------------------------------------------------------------------
  // The upload chain

  /** How the upload of one photo ends: its download URL; the photo could
      not be read; the upload failed; or the upload succeeded but the URL
      request failed, which nothing listens for. */
  datatype Upload = Uploaded(url: string) | ProcessingFailed | UploadFailed | UrlLost

  /** The index of the first upload that does not end with a URL. */
  function FirstFailure(outs: seq<Upload>): (r: Option<nat>)
    ensures r.None? <==> forall i :: 0 <= i < |outs| ==> outs[i].Uploaded?
    ensures r.Some? ==>
      (r.value < |outs| && !outs[r.value].Uploaded? && forall i :: 0 <= i < r.value ==> outs[i].Uploaded?)
  {
    if outs == [] then None
    else if !outs[0].Uploaded? then Some(0)
    else
      var k := FirstFailure(outs[1..]);
      if k.None? then None else Some(k.value + 1)
  }

  /** The URLs gathered before the chain stops: one per photo up to the
      first failure, each the URL of the photo at the same place. */
  function LeadingUrls(outs: seq<Upload>): (r: seq<string>)
    ensures |r| == if FirstFailure(outs).None? then |outs| else FirstFailure(outs).value
    ensures forall i :: 0 <= i < |r| ==> outs[i].Uploaded? && r[i] == outs[i].url
  {
    if outs == [] || !outs[0].Uploaded? then []
    else [outs[0].url] + LeadingUrls(outs[1..])
  }

  /** `uploadNextImage` from index 0: each photo is uploaded only after the
      one before it produced its URL. Returns the URLs gathered, where the
      chain stopped, and how many uploads it started; a photo that could not
      be read throws before its `putBytes`, so no upload of it starts. */
  method UploadEach(outs: seq<Upload>) returns (urls: seq<string>, stop: Option<nat>, started: nat)
    ensures stop == FirstFailure(outs) && urls == LeadingUrls(outs)
    ensures started == if stop.None? then |outs| else stop.value + (if outs[stop.value].ProcessingFailed? then 0 else 1)
  {
    urls := [];
    var i := 0;
    while i < |outs|
      invariant 0 <= i <= |outs|
      invariant |urls| == i
      invariant forall j :: 0 <= j < i ==> outs[j].Uploaded? && urls[j] == outs[j].url
    {
      if !outs[i].Uploaded? {
        return urls, Some(i), if outs[i].ProcessingFailed? then i else i + 1;
      }
      urls := urls + [outs[i].url];
      i := i + 1;
    }
    return urls, None, |outs|;
  }

  // ---------------------------------------------------------------------
  // The review

  /** `createReview`: a fresh review with the signed-in user, the selected
      restaurant, the trimmed texts, the rating, the URLs and the visit
      date; accuracy 100 %, a square first photo, no votes and no
      comments. The author's and the restaurant's names are left unset. */
  function ReviewFor(f: Form, uid: string, urls: seq<string>): (r: Review)
    requires f.restaurant.Some?
    ensures r.userId == Some(uid) && r.restaurantId == f.restaurant.value.id
    ensures r.caption == Some(JavaTrim(f.caption)) && r.description == Some(JavaTrim(f.description))
    ensures r.rating == f.rating && r.imageUrls == Some(urls) && r.createdAt == Some(f.date)
    ensures r.accuracyPercent == 100.0 && IsFirstImageSquare(r)
    ensures r.votes == Some(map[]) && r.comments == Some([])
    ensures r.id.None? && r.userName.None? && r.restaurantName.None?
  {
    EmptyReview.(userId := Some(uid), restaurantId := f.restaurant.value.id,
                 caption := Some(JavaTrim(f.caption)), description := Some(JavaTrim(f.description)),
                 rating := f.rating, accuracyPercent := 100.0, imageUrls := Some(urls),
                 firstImageType := Some(SQUARE), createdAt := Some(f.date),
                 votes := Some(map[]), comments := Some([]))
  }

  /** The setters on `new Review()` give the same review as the full
      constructor with no id, no names and accuracy 0. */
  lemma ReviewForIsNewReview(f: Form, uid: string, urls: seq<string>)
    requires f.restaurant.Some?
    ensures ReviewFor(f, uid, urls) ==
      NewReview(None, Some(uid), None, f.restaurant.value.id, None, Some(JavaTrim(f.caption)),
                Some(JavaTrim(f.description)), f.rating, 0, Some(urls), Some(f.date))
  {
  }

  /** A submitted review, saved and read back under its new document id,
      keeps the form's texts, restaurant, photos and date. */
  lemma SubmittedReadsBack(f: Form, uid: string, urls: seq<string>, docId: string)
    requires f.restaurant.Some?
    ensures Parses(Doc(docId, ReviewFields(ReviewFor(f, uid, urls))))
    ensures ReviewOf(Doc(docId, ReviewFields(ReviewFor(f, uid, urls)))) ==
      ReviewFor(f, uid, urls).(id := Some(docId))
  {
    SaveThenRead(ReviewFor(f, uid, urls), docId);
  }

  /** How a tap on Submit ends. */
  datatype Submitted =
    | Rejected(reason: Invalid)
    | Stopped(at: nat, failure: Upload)
    | Created(review: Review)

  /** What a tap on Submit leads to: the first failed check; else, with
      no photos, the review without URLs; else the first failed upload, or
      the review with every photo's URL. */
  function Submission(f: Form, uid: string, outs: seq<Upload>): Submitted
    requires |outs| == |f.images|
  {
    var v := Validate(f);
    if v.Some? then Rejected(v.value)
    else if f.images == [] then Created(ReviewFor(f, uid, []))
    else
      var k := FirstFailure(outs);
      if k.Some? then Stopped(k.value, outs[k.value])
      else Created(ReviewFor(f, uid, LeadingUrls(outs)))
  }

  /** A review is created only for a valid form whose photos all uploaded,
      with the photos' URLs in the order the photos were picked; the chain
      stops at the first photo without a URL. */
  lemma SubmissionSpec(f: Form, uid: string, outs: seq<Upload>)
    requires |outs| == |f.images|
    ensures Submission(f, uid, outs).Rejected? <==> Validate(f).Some?
    ensures Submission(f, uid, outs).Created? ==>
      Validate(f).None? && (forall i :: 0 <= i < |outs| ==> outs[i].Uploaded?) &&
      Submission(f, uid, outs).review.imageUrls.Some? &&
      |Submission(f, uid, outs).review.imageUrls.value| == |f.images| &&
      (forall i :: 0 <= i < |f.images| ==> Submission(f, uid, outs).review.imageUrls.value[i] == outs[i].url)
    ensures Submission(f, uid, outs).Stopped? ==>
      Validate(f).None? && Submission(f, uid, outs).at < |f.images| &&
      Submission(f, uid, outs).failure == outs[Submission(f, uid, outs).at] &&
      !Submission(f, uid, outs).failure.Uploaded? &&
      (forall i :: 0 <= i < Submission(f, uid, outs).at ==> outs[i].Uploaded?)
  {
  }

  // ---------------------------------------------------------------------
  // The screen

  class AddScreen {
    var restaurants: seq<Restaurant>
    var form: Form
    var uploadedImageUrls: seq<string>
    var submitEnabled: bool

    /** At most three photos are ever selected. */
    predicate Valid()
      reads this
    {
      |form.images| <= MAX_IMAGES
    }

    /** `onCreateView` before the restaurant query answers: no restaurants,
        an empty form dated today, the button enabled. */
    constructor (now: Long)
      ensures Valid()
      ensures restaurants == [] && form == Cleared(now) && uploadedImageUrls == [] && submitEnabled
    {
      restaurants := [];
      form := Cleared(now);
      uploadedImageUrls := [];
      submitEnabled := true;
    }

    /** The answer to `loadRestaurants`: the readable restaurants replace
        the list; a failed query leaves it. */
    method LoadRestaurants(answer: Result<seq<RestaurantDoc>>)
      modifies this
      ensures answer.Success? ==> restaurants == RestaurantsOf(answer.value)
      ensures answer.Failure? ==> restaurants == old(restaurants)
      ensures form == old(form) && uploadedImageUrls == old(uploadedImageUrls)
      ensures submitEnabled == old(submitEnabled)
    {
      if answer.Success? {
        restaurants := ParseRestaurants(answer.value);
      }
    }

    /** `onItemSelected`: the prompt row clears the restaurant, any other
        row selects the restaurant whose name it shows. */
    method OnItemSelected(position: int)
      requires 0 <= position <= |restaurants|
      modifies this
      ensures form == old(form).(restaurant := SelectedAt(old(restaurants), position))
      ensures restaurants == old(restaurants) && uploadedImageUrls == old(uploadedImageUrls)
      ensures submitEnabled == old(submitEnabled)
    {
      if position > 0 {
        form := form.(restaurant := Some(restaurants[position - 1]));
      } else {
        form := form.(restaurant := None);
      }
    }

    /** `onNothingSelected`. */
    method OnNothingSelected()
      modifies this
      ensures form == old(form).(restaurant := None)
      ensures restaurants == old(restaurants) && uploadedImageUrls == old(uploadedImageUrls)
      ensures submitEnabled == old(submitEnabled)
    {
      form := form.(restaurant := None);
    }

    /** The date picker's callback. */
    method OnDateSet(date: Long)
      modifies this
      ensures form == old(form).(date := date)
      ensures restaurants == old(restaurants) && uploadedImageUrls == old(uploadedImageUrls)
      ensures submitEnabled == old(submitEnabled)
    {
      form := form.(date := date);
    }

    /** `onActivityResult`: an OK answer with data to the picker's request
        replaces the selection; any other answer leaves it. */
    method OnActivityResult(requestCode: int, resultCode: int, data: Option<PickerData>)
      requires Valid()
      modifies this
      ensures Valid()
      ensures requestCode == PICK_IMAGE_REQUEST && resultCode == RESULT_OK && data.Some? ==>
        form == old(form).(images := Selection(data.value))
      ensures !(requestCode == PICK_IMAGE_REQUEST && resultCode == RESULT_OK && data.Some?) ==>
        form == old(form)
      ensures restaurants == old(restaurants) && uploadedImageUrls == old(uploadedImageUrls)
      ensures submitEnabled == old(submitEnabled)
    {
      if requestCode == PICK_IMAGE_REQUEST && resultCode == RESULT_OK && data.Some? {
        var picked: seq<string> := [];
        if data.value.clip.Some? {
          picked := PickClipItems(data.value.clip.value);
        } else if data.value.uri.Some? {
          picked := [data.value.uri.value];
        }
        form := form.(images := picked);
      }
    }

    /** `clearForm`. */
    method ClearForm(now: Long)
      modifies this
      ensures form == Cleared(now) && uploadedImageUrls == []
      ensures restaurants == old(restaurants) && submitEnabled == old(submitEnabled)
    {
      form := Cleared(now);
      uploadedImageUrls := [];
    }

    /** A tap on Submit by the signed-in user `uid`. `outs` is how each
        photo's upload would end and `saved` whether the save succeeds.
        Returns how the tap ends and the photos whose upload was started,
        in the order they were started. A form that fails a check starts
        nothing and changes nothing. */
    method SubmitReview(uid: string, outs: seq<Upload>, saved: bool, now: Long)
      returns (outcome: Submitted, started: seq<string>)
      requires submitEnabled && |outs| == |form.images|
      modifies this
      ensures outcome == Submission(old(form), uid, outs)
      ensures outcome.Rejected? ==> started == [] && form == old(form)
      ensures outcome.Rejected? ==> uploadedImageUrls == old(uploadedImageUrls)
      ensures outcome.Stopped? ==>
        started == old(form.images)[..outcome.at + (if outcome.failure.ProcessingFailed? then 0 else 1)]
      ensures outcome.Created? ==> started == old(form.images)
      ensures outcome.Stopped? ==> form == old(form) && uploadedImageUrls == LeadingUrls(outs)
      ensures outcome.Created? ==> form == if saved then Cleared(now) else old(form)
      ensures outcome.Created? && saved ==> uploadedImageUrls == []
      ensures outcome.Created? && !saved ==>
        uploadedImageUrls == if old(form.images) == [] then old(uploadedImageUrls) else LeadingUrls(outs)
      ensures submitEnabled <==> !(outcome.Stopped? && outcome.failure.UrlLost?)
      ensures restaurants == old(restaurants)
    {
      var v := Validate(form);
      if v.Some? {
        return Rejected(v.value), [];
      }
      submitEnabled := false;
      outcome, started := UploadImagesAndCreateReview(uid, outs, saved, now);
    }

    /** `uploadImagesAndCreateReview` on a valid form: with no photos the
        review is created at once and the URL list is left as it was;
        otherwise the list is cleared and the chain runs. A stopped chain
        re-enables the button, except when a URL request failed; a created
        review clears the form once saved, and the button comes back either
        way. */
    method UploadImagesAndCreateReview(uid: string, outs: seq<Upload>, saved: bool, now: Long)
      returns (outcome: Submitted, started: seq<string>)
      requires Validate(form).None? && |outs| == |form.images|
      modifies this
      ensures outcome == Submission(old(form), uid, outs) && !outcome.Rejected?
      ensures outcome.Stopped? ==>
        started == old(form.images)[..outcome.at + (if outcome.failure.ProcessingFailed? then 0 else 1)]
      ensures outcome.Created? ==> started == old(form.images)
      ensures outcome.Stopped? ==> form == old(form) && uploadedImageUrls == LeadingUrls(outs)
      ensures outcome.Created? ==> form == if saved then Cleared(now) else old(form)
      ensures outcome.Created? && saved ==> uploadedImageUrls == []
      ensures outcome.Created? && !saved ==>
        uploadedImageUrls == if old(form.images) == [] then old(uploadedImageUrls) else LeadingUrls(outs)
      ensures submitEnabled <==> !(outcome.Stopped? && outcome.failure.UrlLost?)
      ensures restaurants == old(restaurants)
    {
      var f := form;
      if f.images == [] {
        outcome, started := Created(ReviewFor(f, uid, [])), [];
        assert outcome == Submission(f, uid, outs);
        if saved {
          ClearForm(now);
        }
        submitEnabled := true;
        return;
      }
      var urls, stop, n := UploadEach(outs);
      uploadedImageUrls := urls;
      started := f.images[..n];
      if stop.Some? {
        outcome := Stopped(stop.value, outs[stop.value]);
        assert outcome == Submission(f, uid, outs);
        submitEnabled := !outs[stop.value].UrlLost?;
        return;
      }
      outcome := Created(ReviewFor(f, uid, urls));
      assert outcome == Submission(f, uid, outs);
      if saved {
        ClearForm(now);
      }
      submitEnabled := true;
    }
  }
}
