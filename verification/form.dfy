/**
 * The create-event form: its default values, the free-event checkbox, the price
 * input and the submit handler.
 *
 * The submit handler sets `isLoading`, awaits the poster upload, awaits the
 * write of the new document, then announces success and navigates to the
 * listing; any failure is logged and announced with one generic message, and
 * `isLoading` is reset on every path. The two awaits are the points where the
 * handler suspends, so the class below splits the handler there: `Submit`
 * runs up to the upload, `UploadSettled` resumes with the upload's outcome,
 * `WriteSettled` with the write's. Upload and write are abstract outcomes.
 * What the handler does to the world (spinner, upload, write, toast,
 * navigation, console log) is recorded, in order, in the `effects` log.
 */
module AcaraForm {
  import opened Wrappers
  import opened Rupiah
  import opened Schema

  const ThumbnailFolder := "thumbnail_acara"
  const AcaraCollection := "acara"
  const ListingPath := "/dashboard/acara"
  const SuccessToast := "Berhasil membuat acara!"
  const FailureToast := "Terjadi kesalahan di server!"

  /** An existing event handed to the form, with the fields its defaults read. */
  datatype InitialData = InitialData(
    name: string,
    category: string,
    harga: string,
    description: string,
    isFree: bool,
    tanggal: DateInput,
    pembicara: string,
    jabatanPembicara: string,
    tempat: string,
    slot: string)

  /**
   * `defaultValues`: the initial event's fields, or empty strings, a free event
   * and the current time when there is none. No image is ever preset. An
   * initial event's date is used when present (a Date is truthy even when its
   * time is NaN), and the current time otherwise.
   */
  function DefaultValues(initial: Option<InitialData>, now: int): (v: FormValues)
    ensures v.image.None? && !v.tanggal.NoDate?
    ensures initial.None? ==> v.isFree && v.harga == "" && v.tanggal == At(now)
    ensures initial.Some? ==> v.isFree == initial.value.isFree && v.harga == initial.value.harga
  {
    match initial
    case None =>
      FormValues(None, "", "", "", "", "", At(now), true, "", "", "")
    case Some(d) =>
      FormValues(None, d.name, d.pembicara, d.jabatanPembicara, d.slot, d.tempat,
                 if d.tanggal.NoDate? then At(now) else d.tanggal,
                 d.isFree, d.category, d.harga, d.description)
  }

  /** The document written for a new event. */
  datatype AcaraRecord = AcaraRecord(
    name: string,
    pembicara: string,
    jabatanPembicara: string,
    slot: string,
    tempat: string,
    tanggal: int,
    isFree: bool,
    category: string,
    harga: string,
    description: string,
    isPublic: bool,
    isComplete: bool,
    thumbnailUrl: string,
    userId: Option<string>)

  /** The submitted values a record carries, with no image. */
  function RecordValues(r: AcaraRecord): FormValues {
    FormValues(None, r.name, r.pembicara, r.jabatanPembicara, r.slot, r.tempat,
               At(r.tanggal), r.isFree, r.category, r.harga, r.description)
  }

  /**
   * The record written on submit: the validated values without `image`, plus
   * `is_public = false`, `is_complete = false`, the uploaded `thumbnailUrl` and
   * the caller's id (absent when no user is loaded).
   */
  function BuildRecord(v: FormValues, thumbnailUrl: string, userId: Option<string>): (r: AcaraRecord)
    requires v.tanggal.At?
    ensures RecordValues(r) == v.(image := None)
    ensures !r.isPublic && !r.isComplete
    ensures r.thumbnailUrl == thumbnailUrl && r.userId == userId
  {
    AcaraRecord(v.name, v.pembicara, v.jabatanPembicara, v.slot, v.tempat, v.tanggal.millis,
                v.isFree, v.category, v.harga, v.description,
                false, false, thumbnailUrl, userId)
  }

  datatype UploadOutcome = Uploaded(url: string) | UploadFailed
  datatype WriteOutcome = Written | WriteFailed

  /** What the submit handler does to the world, in order. */
  datatype Effect =
    | SetLoading(on: bool)
    | UploadImage(file: FileInfo, folder: string)
    | AddDoc(collection: string, doc: AcaraRecord)
    | Toast(message: string)
    | Navigate(path: string)
    | LogError

  /** The handler's continuation: where it is suspended, and with what. */
  datatype Pending = Idle | AwaitingUpload(submitted: FormValues) | AwaitingWrite(doc: AcaraRecord)

  // ---------------------------------------------------------------------------
  // The whole handler run without interruption
  // ---------------------------------------------------------------------------

  /** The effects of one run of `onSubmit` on validated values, for given outcomes of the two awaits. */
  function SubmitEffects(v: FormValues, userId: Option<string>, upload: UploadOutcome, write: WriteOutcome): (t: seq<Effect>)
    requires SatisfiesSchema(v)
    ensures |t| == if upload.Uploaded? then 6 else 5
    ensures t[0] == SetLoading(true) && t[1] == UploadImage(v.image.value[0], ThumbnailFolder)
    ensures t[|t| - 1] == SetLoading(false)
  {
    [SetLoading(true), UploadImage(v.image.value[0], ThumbnailFolder)]
    + (match upload
       case UploadFailed => [LogError, Toast(FailureToast)]
       case Uploaded(url) =>
         [AddDoc(AcaraCollection, BuildRecord(v, url, userId))]
         + (if write.Written? then [Toast(SuccessToast), Navigate(ListingPath)] else [LogError, Toast(FailureToast)]))
    + [SetLoading(false)]
  }

  /** The items each effect contributes to a projection of a log, in order. */
  function Select<T>(t: seq<Effect>, pick: Effect -> seq<T>): seq<T> {
    if t == [] then [] else pick(t[0]) + Select(t[1..], pick)
  }

  lemma {:induction false} SelectConcat<T>(a: seq<Effect>, b: seq<Effect>, pick: Effect -> seq<T>)
    ensures Select(a + b, pick) == Select(a, pick) + Select(b, pick)
  {
    if a != [] {
      assert (a + b)[0] == a[0];
      assert (a + b)[1..] == a[1..] + b;
      SelectConcat(a[1..], b, pick);
    } else {
      assert a + b == b;
    }
  }

  lemma SelectOne<T>(e: Effect, pick: Effect -> seq<T>)
    ensures Select([e], pick) == pick(e)
  {
    assert [e][1..] == [];
  }

  function WrittenDocs(e: Effect): seq<AcaraRecord> {
    if e.AddDoc? then [e.doc] else []
  }

  function ToastMessages(e: Effect): seq<string> {
    if e.Toast? then [e.message] else []
  }

  function NavigationPaths(e: Effect): seq<string> {
    if e.Navigate? then [e.path] else []
  }

  function UploadedFiles(e: Effect): seq<(FileInfo, string)> {
    if e.UploadImage? then [(e.file, e.folder)] else []
  }

  /** Projects a short log given element by element. */
  lemma SelectOfFour<T>(a: Effect, b: Effect, c: Effect, d: Effect, pick: Effect -> seq<T>)
    ensures Select([a, b, c, d], pick) == pick(a) + pick(b) + pick(c) + pick(d)
  {
    assert [a, b, c, d] == [a] + [b] + [c] + [d];
    SelectConcat([a] + [b] + [c], [d], pick);
    SelectConcat([a] + [b], [c], pick);
    SelectConcat([a], [b], pick);
    SelectOne(a, pick);
    SelectOne(b, pick);
    SelectOne(c, pick);
    SelectOne(d, pick);
  }

  lemma SelectOfSix<T>(a: Effect, b: Effect, c: Effect, d: Effect, e: Effect, f: Effect, pick: Effect -> seq<T>)
    ensures Select([a, b, c, d, e, f], pick) == pick(a) + pick(b) + pick(c) + pick(d) + pick(e) + pick(f)
  {
    assert [a, b, c, d, e, f] == [a, b, c, d] + [e] + [f];
    SelectConcat([a, b, c, d] + [e], [f], pick);
    SelectConcat([a, b, c, d], [e], pick);
    SelectOfFour(a, b, c, d, pick);
    SelectOne(e, pick);
    SelectOne(f, pick);
  }

  /** The effects of a run, spelled out for each pair of outcomes. */
  lemma SubmitEffectsCases(v: FormValues, userId: Option<string>, upload: UploadOutcome, write: WriteOutcome)
    requires SatisfiesSchema(v)
    ensures var t := SubmitEffects(v, userId, upload, write);
      var start := [SetLoading(true), UploadImage(v.image.value[0], ThumbnailFolder)];
      && (upload.UploadFailed? ==> t == start + [LogError, Toast(FailureToast), SetLoading(false)])
      && (upload.Uploaded? && write.Written? ==>
            t == start + [AddDoc(AcaraCollection, BuildRecord(v, upload.url, userId)),
                          Toast(SuccessToast), Navigate(ListingPath), SetLoading(false)])
      && (upload.Uploaded? && write.WriteFailed? ==>
            t == start + [AddDoc(AcaraCollection, BuildRecord(v, upload.url, userId)),
                          LogError, Toast(FailureToast), SetLoading(false)])
  {
  }

  /** One run uploads the poster exactly once, to the thumbnail folder, whatever the outcomes. */
  lemma UploadsPosterOnce(v: FormValues, userId: Option<string>, upload: UploadOutcome, write: WriteOutcome)
    requires SatisfiesSchema(v)
    ensures Select(SubmitEffects(v, userId, upload, write), UploadedFiles) == [(v.image.value[0], ThumbnailFolder)]
  {
    SubmitEffectsCases(v, userId, upload, write);
    var file := v.image.value[0];
    if upload.UploadFailed? {
      var first := [SetLoading(true), UploadImage(file, ThumbnailFolder), LogError, Toast(FailureToast)];
      assert SubmitEffects(v, userId, upload, write) == first + [SetLoading(false)];
      SelectOfFour(SetLoading(true), UploadImage(file, ThumbnailFolder), LogError, Toast(FailureToast), UploadedFiles);
      SelectConcat(first, [SetLoading(false)], UploadedFiles);
      SelectOne(SetLoading(false), UploadedFiles);
    } else {
      var doc := AddDoc(AcaraCollection, BuildRecord(v, upload.url, userId));
      if write.Written? {
        SelectOfSix(SetLoading(true), UploadImage(file, ThumbnailFolder), doc, Toast(SuccessToast), Navigate(ListingPath), SetLoading(false), UploadedFiles);
      } else {
        SelectOfSix(SetLoading(true), UploadImage(file, ThumbnailFolder), doc, LogError, Toast(FailureToast), SetLoading(false), UploadedFiles);
      }
    }
  }

  /** One run writes exactly one document when the upload gives a URL, and none otherwise; the document carries that URL. */
  lemma NoWriteWithoutUrl(v: FormValues, userId: Option<string>, upload: UploadOutcome, write: WriteOutcome)
    requires SatisfiesSchema(v)
    ensures Select(SubmitEffects(v, userId, upload, write), WrittenDocs) ==
      if upload.Uploaded? then [BuildRecord(v, upload.url, userId)] else []
  {
    SubmitEffectsCases(v, userId, upload, write);
    var file := v.image.value[0];
    if upload.UploadFailed? {
      var first := [SetLoading(true), UploadImage(file, ThumbnailFolder), LogError, Toast(FailureToast)];
      assert SubmitEffects(v, userId, upload, write) == first + [SetLoading(false)];
      SelectOfFour(SetLoading(true), UploadImage(file, ThumbnailFolder), LogError, Toast(FailureToast), WrittenDocs);
      SelectConcat(first, [SetLoading(false)], WrittenDocs);
      SelectOne(SetLoading(false), WrittenDocs);
    } else {
      var doc := AddDoc(AcaraCollection, BuildRecord(v, upload.url, userId));
      if write.Written? {
        SelectOfSix(SetLoading(true), UploadImage(file, ThumbnailFolder), doc, Toast(SuccessToast), Navigate(ListingPath), SetLoading(false), WrittenDocs);
      } else {
        SelectOfSix(SetLoading(true), UploadImage(file, ThumbnailFolder), doc, LogError, Toast(FailureToast), SetLoading(false), WrittenDocs);
      }
    }
  }

  /**
   * Exactly one toast is shown: the success message when both the upload and the
   * write succeed, the same generic message for any failure; the form navigates
   * to the listing only on success.
   */
  lemma OneToastAndNavigationOnSuccess(v: FormValues, userId: Option<string>, upload: UploadOutcome, write: WriteOutcome)
    requires SatisfiesSchema(v)
    ensures var t := SubmitEffects(v, userId, upload, write);
      var success := upload.Uploaded? && write.Written?;
      && Select(t, ToastMessages) == [if success then SuccessToast else FailureToast]
      && Select(t, NavigationPaths) == if success then [ListingPath] else []
  {
    SubmitEffectsCases(v, userId, upload, write);
    var file := v.image.value[0];
    var t := SubmitEffects(v, userId, upload, write);
    if upload.UploadFailed? {
      var first := [SetLoading(true), UploadImage(file, ThumbnailFolder), LogError, Toast(FailureToast)];
      assert t == first + [SetLoading(false)];
      SelectOfFour(SetLoading(true), UploadImage(file, ThumbnailFolder), LogError, Toast(FailureToast), ToastMessages);
      SelectOfFour(SetLoading(true), UploadImage(file, ThumbnailFolder), LogError, Toast(FailureToast), NavigationPaths);
      SelectConcat(first, [SetLoading(false)], ToastMessages);
      SelectConcat(first, [SetLoading(false)], NavigationPaths);
      SelectOne(SetLoading(false), ToastMessages);
      SelectOne(SetLoading(false), NavigationPaths);
    } else {
      var doc := AddDoc(AcaraCollection, BuildRecord(v, upload.url, userId));
      if write.Written? {
        SelectOfSix(SetLoading(true), UploadImage(file, ThumbnailFolder), doc, Toast(SuccessToast), Navigate(ListingPath), SetLoading(false), ToastMessages);
        SelectOfSix(SetLoading(true), UploadImage(file, ThumbnailFolder), doc, Toast(SuccessToast), Navigate(ListingPath), SetLoading(false), NavigationPaths);
      } else {
        SelectOfSix(SetLoading(true), UploadImage(file, ThumbnailFolder), doc, LogError, Toast(FailureToast), SetLoading(false), ToastMessages);
        SelectOfSix(SetLoading(true), UploadImage(file, ThumbnailFolder), doc, LogError, Toast(FailureToast), SetLoading(false), NavigationPaths);
      }
    }
  }

  /** `isLoading` is switched on first and off last, and not touched in between: true throughout, false after, on every path. */
  lemma LoadingBracketsRun(v: FormValues, userId: Option<string>, upload: UploadOutcome, write: WriteOutcome)
    requires SatisfiesSchema(v)
    ensures var t := SubmitEffects(v, userId, upload, write);
      && |t| >= 2 && t[0] == SetLoading(true) && t[|t| - 1] == SetLoading(false)
      && forall k :: 0 < k < |t| - 1 ==> !t[k].SetLoading?
  {
    SubmitEffectsCases(v, userId, upload, write);
  }

  // ---------------------------------------------------------------------------
  // Facts every log of the form keeps
  // ---------------------------------------------------------------------------

  /** Whether the spinner is on after a log: the last `SetLoading` decides; off when there is none. */
  function LoadingAfter(t: seq<Effect>): bool {
    if t == [] then false
    else if t[|t| - 1].SetLoading? then t[|t| - 1].on
    else LoadingAfter(t[..|t| - 1])
  }

  /** Every write directly follows an upload, every success toast directly follows a write, every navigation directly follows a success toast. */
  predicate OrderedLog(t: seq<Effect>) {
    && (forall k :: 0 <= k < |t| && t[k].AddDoc? ==> 0 < k && t[k - 1].UploadImage?)
    && (forall k :: 0 <= k < |t| && t[k] == Toast(SuccessToast) ==> 0 < k && t[k - 1].AddDoc?)
    && (forall k :: 0 <= k < |t| && t[k].Navigate? ==> 0 < k && t[k - 1] == Toast(SuccessToast))
  }

  lemma {:induction false} LoadingAfterAppend(t: seq<Effect>, s: seq<Effect>)
    ensures (forall k :: 0 <= k < |s| ==> !s[k].SetLoading?) ==> LoadingAfter(t + s) == LoadingAfter(t)
    ensures s != [] && s[|s| - 1].SetLoading? ==> LoadingAfter(t + s) == s[|s| - 1].on
    decreases |s|
  {
    if s != [] {
      assert (t + s)[|t + s| - 1] == s[|s| - 1];
      assert (t + s)[..|t + s| - 1] == t + s[..|s| - 1];
      LoadingAfterAppend(t, s[..|s| - 1]);
    } else {
      assert t + s == t;
    }
  }

  /** Writing after an upload keeps the log ordered. */
  lemma WriteAfterUploadKeepsOrder(t: seq<Effect>, doc: AcaraRecord)
    requires OrderedLog(t) && t != [] && t[|t| - 1].UploadImage?
    ensures OrderedLog(t + [AddDoc(AcaraCollection, doc)])
  {
    var all := t + [AddDoc(AcaraCollection, doc)];
    forall k | 0 <= k < |t| ensures all[k] == t[k] { }
  }

  /** Appending effects that are neither writes, success toasts nor navigations keeps the log ordered. */
  lemma PlainEffectsKeepOrder(t: seq<Effect>, s: seq<Effect>)
    requires OrderedLog(t)
    requires forall k :: 0 <= k < |s| ==> !s[k].AddDoc? && !s[k].Navigate? && s[k] != Toast(SuccessToast)
    ensures OrderedLog(t + s)
  {
    var all := t + s;
    forall k | 0 <= k < |t| ensures all[k] == t[k] { }
    forall k | |t| <= k < |all| ensures all[k] == s[k - |t|] { }
  }

  /** A class-free reading of the handler's log: spinner on, the whole run, spinner off. */
  lemma RunLeavesLogOrdered(before: seq<Effect>, v: FormValues, userId: Option<string>, upload: UploadOutcome, write: WriteOutcome)
    requires SatisfiesSchema(v) && OrderedLog(before)
    ensures OrderedLog(before + SubmitEffects(v, userId, upload, write))
    ensures !LoadingAfter(before + SubmitEffects(v, userId, upload, write))
  {
    var t := SubmitEffects(v, userId, upload, write);
    SubmitEffectsCases(v, userId, upload, write);
    LoadingAfterAppend(before, t);
    var all := before + t;
    forall k | 0 <= k < |all| && all[k].AddDoc? ensures 0 < k && all[k - 1].UploadImage? {
      if k >= |before| { assert all[k] == t[k - |before|]; assert all[k - 1] == t[k - 1 - |before|]; }
    }
    forall k | 0 <= k < |all| && all[k] == Toast(SuccessToast) ensures 0 < k && all[k - 1].AddDoc? {
      if k >= |before| { assert all[k] == t[k - |before|]; assert all[k - 1] == t[k - 1 - |before|]; }
    }
    forall k | 0 <= k < |all| && all[k].Navigate? ensures 0 < k && all[k - 1] == Toast(SuccessToast) {
      if k >= |before| { assert all[k] == t[k - |before|]; assert all[k - 1] == t[k - 1 - |before|]; }
    }
  }

  /**
   * The facts the form's state keeps: the spinner is what the log last set it
   * to, and it is on exactly while the handler is suspended; the log is ordered;
   * an awaited upload or write is the log's last entry.
   */
  ghost predicate Consistent(isLoading: bool, pending: Pending, effects: seq<Effect>) {
    && isLoading == LoadingAfter(effects)
    && (isLoading <==> !pending.Idle?)
    && OrderedLog(effects)
    && (pending.AwaitingUpload? ==>
          && SatisfiesSchema(pending.submitted)
          && effects != [] && effects[|effects| - 1].UploadImage?)
    && (pending.AwaitingWrite? ==>
          effects != [] && effects[|effects| - 1] == AddDoc(AcaraCollection, pending.doc))
  }

  // ---------------------------------------------------------------------------
  // The form's state
  // ---------------------------------------------------------------------------

  class CreateForm {
    /** The values the form holds. */
    var values: FormValues
    /** Disables the submit button while the handler runs. */
    var isLoading: bool
    /** The error report shown under the fields after the last submit attempt. */
    var errors: map<Field, string>
    var pending: Pending
    var effects: seq<Effect>
    /** The signed-in user's id, absent when no user is loaded. */
    const userId: Option<string>

    ghost predicate Valid()
      reads this
    {
      Consistent(isLoading, pending, effects)
    }

    constructor (initial: Option<InitialData>, now: int, user: Option<string>)
      ensures Valid()
      ensures values == DefaultValues(initial, now)
      ensures !isLoading && errors == map[] && pending == Idle && effects == []
      ensures userId == user
    {
      values := DefaultValues(initial, now);
      isLoading := false;
      errors := map[];
      pending := Idle;
      effects := [];
      userId := user;
    }

    /** The free-event checkbox: stores the new state and, in either direction, sets `harga` to "0". */
    method ToggleFree(checked: bool)
      requires Valid()
      modifies this
      ensures Valid()
      ensures values == old(values).(isFree := checked, harga := "0")
      ensures isLoading == old(isLoading) && errors == old(errors)
      ensures pending == old(pending) && effects == old(effects)
    {
      values := values.(isFree := checked);
      values := values.(harga := "0");
    }

    /** What the price input shows. */
    function PriceText(): (shown: string)
      reads this
      ensures AllDigits(values.harga) ==> ParseRupiah(shown) == values.harga
    {
      var shown := FormatRupiah(Text(values.harga));
      assert AllDigits(values.harga) ==> ParseRupiah(shown) == values.harga by {
        if AllDigits(values.harga) {
          RoundTrip(values.harga);
        }
      }
      shown
    }

    /** The price input's change handler: stores the digits of what was typed. Rendered only for a paid event. */
    method EditPrice(typed: string)
      requires Valid() && !values.isFree
      modifies this
      ensures Valid()
      ensures values == old(values).(harga := ParseRupiah(typed))
      ensures AllDigits(values.harga)
      ensures isLoading == old(isLoading) && errors == old(errors)
      ensures pending == old(pending) && effects == old(effects)
    {
      values := values.(harga := ParseRupiah(typed));
    }

    /** The plain inputs: poster picker, text fields and date picker store what they are given. */
    method EditFields(image: Option<seq<FileInfo>>, name: string, pembicara: string, jabatanPembicara: string,
                      slot: string, tempat: string, tanggal: DateInput, category: string, description: string)
      requires Valid()
      modifies this
      ensures Valid()
      ensures values == FormValues(image, name, pembicara, jabatanPembicara, slot, tempat, tanggal,
                                   old(values).isFree, category, old(values).harga, description)
      ensures isLoading == old(isLoading) && errors == old(errors)
      ensures pending == old(pending) && effects == old(effects)
    {
      values := FormValues(image, name, pembicara, jabatanPembicara, slot, tempat, tanggal,
                           values.isFree, category, values.harga, description);
    }

    /**
     * A click on the submit button. While `isLoading` the button is disabled and
     * nothing happens. Otherwise the values are validated; with errors they are
     * shown and the handler does not run; without, the handler starts: the
     * spinner goes on and the upload of the poster begins.
     */
    method Submit()
      requires Valid()
      modifies this
      ensures Valid()
      ensures values == old(values)
      ensures old(isLoading) ==>
        isLoading && errors == old(errors) && pending == old(pending) && effects == old(effects)
      ensures !old(isLoading) ==> errors == FieldErrors(values)
      ensures !old(isLoading) && !SatisfiesSchema(values) ==>
        !isLoading && pending == Idle && effects == old(effects)
      ensures !old(isLoading) && SatisfiesSchema(values) ==>
        && isLoading && pending == AwaitingUpload(values)
        && effects == old(effects) + [SetLoading(true), UploadImage(values.image.value[0], ThumbnailFolder)]
    {
      if isLoading {
        return;
      }
      errors := FieldErrors(values);
      if errors != map[] {
        return;
      }
      StartUpload();
    }

    /** The start of the handler on validated values: the spinner goes on and the upload of the first file begins. */
    method StartUpload()
      requires Valid() && !isLoading && SatisfiesSchema(values)
      modifies this
      ensures Valid()
      ensures values == old(values) && errors == old(errors)
      ensures isLoading && pending == AwaitingUpload(values)
      ensures effects == old(effects) + [SetLoading(true), UploadImage(values.image.value[0], ThumbnailFolder)]
    {
      var started := [SetLoading(true), UploadImage(values.image.value[0], ThumbnailFolder)];
      LoadingAfterAppend(effects, started);
      PlainEffectsKeepOrder(effects, started);
      effects := effects + started;
      isLoading := true;
      pending := AwaitingUpload(values);
    }

    /**
     * The upload settles. With a URL, the record is built from the submitted
     * values and written; on failure, the error is logged, the generic toast is
     * shown and the spinner goes off. Nothing happens unless an upload is awaited.
     */
    method UploadSettled(upload: UploadOutcome)
      requires Valid()
      modifies this
      ensures Valid()
      ensures values == old(values) && errors == old(errors)
      ensures !old(pending).AwaitingUpload? ==>
        isLoading == old(isLoading) && pending == old(pending) && effects == old(effects)
      ensures old(pending).AwaitingUpload? && upload.Uploaded? ==>
        var doc := BuildRecord(old(pending).submitted, upload.url, userId);
        isLoading && pending == AwaitingWrite(doc) && effects == old(effects) + [AddDoc(AcaraCollection, doc)]
      ensures old(pending).AwaitingUpload? && upload.UploadFailed? ==>
        && !isLoading && pending == Idle
        && effects == old(effects) + [LogError, Toast(FailureToast), SetLoading(false)]
    {
      if !pending.AwaitingUpload? {
        return;
      }
      var submitted := pending.submitted;
      match upload
      case Uploaded(url) =>
        var doc := BuildRecord(submitted, url, userId);
        var written := [AddDoc(AcaraCollection, doc)];
        LoadingAfterAppend(effects, written);
        WriteAfterUploadKeepsOrder(effects, doc);
        effects := effects + written;
        pending := AwaitingWrite(doc);
      case UploadFailed =>
        var failed := [LogError, Toast(FailureToast), SetLoading(false)];
        LoadingAfterAppend(effects, failed);
        PlainEffectsKeepOrder(effects, failed);
        effects := effects + failed;
        isLoading := false;
        pending := Idle;
    }

    /**
     * The write settles. On success the success toast is shown and the form
     * navigates to the listing; on failure the error is logged and the generic
     * toast is shown. On both paths the spinner goes off. Nothing happens unless
     * a write is awaited.
     */
    method WriteSettled(write: WriteOutcome)
      requires Valid()
      modifies this
      ensures Valid()
      ensures values == old(values) && errors == old(errors)
      ensures !old(pending).AwaitingWrite? ==>
        isLoading == old(isLoading) && pending == old(pending) && effects == old(effects)
      ensures old(pending).AwaitingWrite? ==>
        && !isLoading && pending == Idle
        && effects == old(effects) + (if write.Written? then [Toast(SuccessToast), Navigate(ListingPath)]
                                      else [LogError, Toast(FailureToast)]) + [SetLoading(false)]
    {
      if !pending.AwaitingWrite? {
        return;
      }
      var finished :=
        (if write.Written? then [Toast(SuccessToast), Navigate(ListingPath)] else [LogError, Toast(FailureToast)])
        + [SetLoading(false)];
      LoadingAfterAppend(effects, finished);
      effects := effects + finished;
      isLoading := false;
      pending := Idle;
    }

    /**
     * A click on an idle form followed by both awaits settling with nothing in
     * between: the log grows by exactly one run of the handler when the values
     * are valid, and not at all otherwise; the spinner is off afterwards.
     */
    method SubmitAndSettle(upload: UploadOutcome, write: WriteOutcome)
      requires Valid() && !isLoading
      modifies this
      ensures Valid() && !isLoading && pending == Idle
      ensures values == old(values) && errors == FieldErrors(old(values))
      ensures effects == old(effects) +
        (if SatisfiesSchema(old(values)) then SubmitEffects(old(values), userId, upload, write) else [])
    {
      ghost var submitted, before := values, effects;
      Submit();
      if !pending.AwaitingUpload? {
        return;
      }
      UploadSettled(upload);
      if pending.AwaitingWrite? {
        WriteSettled(write);
      }
      RunAsAppended(before, submitted, userId, upload, write);
    }
  }

  /** The log after the three steps of the class, regrouped as one run of the handler. */
  lemma RunAsAppended(before: seq<Effect>, v: FormValues, userId: Option<string>, upload: UploadOutcome, write: WriteOutcome)
    requires SatisfiesSchema(v)
    ensures var start := before + [SetLoading(true), UploadImage(v.image.value[0], ThumbnailFolder)];
      var run := before + SubmitEffects(v, userId, upload, write);
      && (upload.UploadFailed? ==> start + [LogError, Toast(FailureToast), SetLoading(false)] == run)
      && (upload.Uploaded? ==>
            var written := start + [AddDoc(AcaraCollection, BuildRecord(v, upload.url, userId))];
            written + (if write.Written? then [Toast(SuccessToast), Navigate(ListingPath)]
                       else [LogError, Toast(FailureToast)]) + [SetLoading(false)] == run)
  {
    SubmitEffectsCases(v, userId, upload, write);
  }

  // ---------------------------------------------------------------------------
  // Defaults and the free-event checkbox
  // ---------------------------------------------------------------------------

  /**
   * With no initial data the event is free and `harga` is "", and nothing but
   * the checkbox sets it to "0": a new form filled in through the plain inputs
   * only, with values the schema accepts, and submitted with both awaits
   * succeeding, writes one document, a free event with `harga` "".
   */
  method UntouchedFreeEventKeepsEmptyPrice(now: int, user: string, url: string, image: seq<FileInfo>,
                                           name: string, pembicara: string, jabatanPembicara: string,
                                           slot: string, tempat: string, tanggal: DateInput,
                                           category: string, description: string)
    returns (written: seq<AcaraRecord>)
    requires SatisfiesSchema(FormValues(Some(image), name, pembicara, jabatanPembicara, slot, tempat, tanggal,
                                        true, category, "", description))
    ensures |written| == 1 && written[0].isFree && written[0].harga == ""
    ensures written[0].thumbnailUrl == url && written[0].userId == Some(user)
  {
    var form := new CreateForm(None, now, Some(user));
    form.EditFields(Some(image), name, pembicara, jabatanPembicara, slot, tempat, tanggal, category, description);
    form.SubmitAndSettle(Uploaded(url), Written);
    var v := form.values;
    assert form.effects == SubmitEffects(v, Some(user), Uploaded(url), Written);
    NoWriteWithoutUrl(v, Some(user), Uploaded(url), Written);
    written := Select(form.effects, WrittenDocs);
  }
}
