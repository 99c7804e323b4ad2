/**
 * The rules of the event-creation form (`formSchema`), as a total function from
 * the form's values to a per-field error report.
 *
 * Every rule of the schema is checked, and every failing refinement is reported
 * (zod's refinements do not stop at the first failure); the form shows the
 * first message reported for each field.
 */
module Schema {
  import opened Wrappers

  const MaxFileSize: nat := 5000000
  const AcceptedImageTypes: seq<string> := ["image/jpeg", "image/jpg", "image/png", "image/webp"]

  /** The parts of a browser `File` the schema looks at. */
  datatype FileInfo = FileInfo(name: string, size: nat, mimeType: string)

  /** The date field: absent, a Date whose time is NaN, or a valid Date at a millisecond since the epoch. */
  datatype DateInput = NoDate | InvalidDate | At(millis: int)

  /** The values the form holds. */
  datatype FormValues = FormValues(
    image: Option<seq<FileInfo>>,
    name: string,
    pembicara: string,
    jabatanPembicara: string,
    slot: string,
    tempat: string,
    tanggal: DateInput,
    isFree: bool,
    category: string,
    harga: string,
    description: string)

  /** The schema's keys. */
  datatype Field =
    Image | Name | Pembicara | JabatanPembicara | Slot | Tempat | Tanggal | IsFree | Category | Harga | Description

  /** The schema's keys, in the order the schema checks them. */
  const FieldOrder: seq<Field> :=
    [Image, Name, Pembicara, JabatanPembicara, Slot, Tempat, Tanggal, IsFree, Category, Harga, Description]

  lemma EveryFieldListed()
    ensures forall f: Field :: f in FieldOrder
  {
    forall f: Field ensures f in FieldOrder {
      match f
      case Image => case Name => case Pembicara => case JabatanPembicara => case Slot =>
      case Tempat => case Tanggal => case IsFree => case Category => case Harga => case Description =>
    }
  }

  const ImageRequired := "Image is required."
  const ImageTooLarge := "Max file size is 5MB."
  const ImageWrongType := ".jpg, .jpeg, .png and .webp files are accepted."
  const NameTooShort := "Nama Acara must be at least 2 characters."
  const PembicaraTooShort := "Nama Pembicara must be at least 2 characters."
  const JabatanTooShort := "Jabatan Pembicara must be at least 2 characters."
  const TempatTooShort := "Tempat must be at least 2 characters."
  const TanggalRequired := "Tanggal pelaksanaan wajib diisi"
  /** zod's own message for a Date whose time is NaN; the schema's message covers only a missing or non-Date value. */
  const InvalidDateMessage := "Invalid date"
  const DescriptionTooShort := "Description must be at least 10 characters."

  /** `files?.length == 1` */
  predicate OneFile(image: Option<seq<FileInfo>>) {
    image.Some? && |image.value| == 1
  }

  /** `files?.[0]?.size <= MAX_FILE_SIZE` (a missing file compares as false). */
  predicate FirstFileSmallEnough(image: Option<seq<FileInfo>>) {
    image.Some? && |image.value| > 0 && image.value[0].size <= MaxFileSize
  }

  /** `ACCEPTED_IMAGE_TYPES.includes(files?.[0]?.type)` */
  predicate FirstFileAccepted(image: Option<seq<FileInfo>>) {
    image.Some? && |image.value| > 0 && image.value[0].mimeType in AcceptedImageTypes
  }

  /** The messages of the three image refinements that fail, in the order they run. */
  function ImageIssues(image: Option<seq<FileInfo>>): (issues: seq<string>)
    ensures issues == [] <==>
      && image.Some? && |image.value| == 1
      && image.value[0].size <= MaxFileSize && image.value[0].mimeType in AcceptedImageTypes
    ensures ImageRequired in issues <==> !OneFile(image)
    ensures ImageTooLarge in issues <==> !FirstFileSmallEnough(image)
    ensures ImageWrongType in issues <==> !FirstFileAccepted(image)
  {
    (if OneFile(image) then [] else [ImageRequired])
    + (if FirstFileSmallEnough(image) then [] else [ImageTooLarge])
    + (if FirstFileAccepted(image) then [] else [ImageWrongType])
  }

  /** `z.string().min(min, { message })` */
  function MinLengthIssues(s: string, min: nat, message: string): (issues: seq<string>)
    ensures issues == [] <==> |s| >= min
    ensures issues != [] ==> issues == [message]
  {
    if |s| < min then [message] else []
  }

  /** All the messages the schema reports for field f. */
  function FieldIssues(f: Field, v: FormValues): (issues: seq<string>)
    ensures f in {Slot, IsFree, Category, Harga} ==> issues == []
    ensures f != Image ==> |issues| <= 1
  {
    match f
    case Image => ImageIssues(v.image)
    case Name => MinLengthIssues(v.name, 2, NameTooShort)
    case Pembicara => MinLengthIssues(v.pembicara, 2, PembicaraTooShort)
    case JabatanPembicara => MinLengthIssues(v.jabatanPembicara, 2, JabatanTooShort)
    case Slot => []
    case Tempat => MinLengthIssues(v.tempat, 2, TempatTooShort)
    case Tanggal =>
      (match v.tanggal
       case NoDate => [TanggalRequired]
       case InvalidDate => [InvalidDateMessage]
       case At(_) => [])
    case IsFree => []
    case Category => []
    case Harga => []
    case Description => MinLengthIssues(v.description, 10, DescriptionTooShort)
  }

  /** The first message of every field that reports one. */
  function FirstIssues(v: FormValues): (report: map<Field, string>)
    ensures forall f {:trigger f in report} :: f in report <==> FieldIssues(f, v) != []
    ensures forall f {:trigger f in report} :: f in report ==> report[f] == FieldIssues(f, v)[0]
  {
    EveryFieldListed();
    map f | f in FieldOrder && FieldIssues(f, v) != [] :: FieldIssues(f, v)[0]
  }

  /**
   * The error report the form shows: the first message of every field that has
   * one. It is empty exactly when every rule holds, and the fields without a
   * rule never appear in it. What each field's entry is, is stated field by
   * field below.
   */
  function FieldErrors(v: FormValues): (errors: map<Field, string>)
    ensures errors == map[] <==> SatisfiesSchema(v)
    ensures Slot !in errors && IsFree !in errors && Category !in errors && Harga !in errors
  {
    EmptyReportIffSatisfied(v);
    FirstIssues(v)
  }

  // ---------------------------------------------------------------------------
  // The rules, field by field
  // ---------------------------------------------------------------------------

  /**
   * The image passes only with exactly one file, at most 5,000,000 bytes, of an
   * accepted type; the message is that of the first of the three checks that fails.
   */
  lemma ImageRule(v: FormValues)
    ensures Image !in FieldErrors(v) <==>
      && v.image.Some? && |v.image.value| == 1
      && v.image.value[0].size <= MaxFileSize
      && v.image.value[0].mimeType in AcceptedImageTypes
    ensures !OneFile(v.image) ==> FieldErrors(v)[Image] == ImageRequired
    ensures OneFile(v.image) && !FirstFileSmallEnough(v.image) ==> FieldErrors(v)[Image] == ImageTooLarge
    ensures OneFile(v.image) && FirstFileSmallEnough(v.image) && !FirstFileAccepted(v.image) ==>
      FieldErrors(v)[Image] == ImageWrongType
  {
    assert FieldIssues(Image, v) == ImageIssues(v.image);
  }

  /** Nama Acara needs at least 2 characters. */
  lemma NameRule(v: FormValues)
    ensures Name in FieldErrors(v) <==> |v.name| < 2
    ensures Name in FieldErrors(v) ==> FieldErrors(v)[Name] == NameTooShort
  {
    assert FieldIssues(Name, v) == MinLengthIssues(v.name, 2, NameTooShort);
  }

  /** Nama Pembicara needs at least 2 characters. */
  lemma PembicaraRule(v: FormValues)
    ensures Pembicara in FieldErrors(v) <==> |v.pembicara| < 2
    ensures Pembicara in FieldErrors(v) ==> FieldErrors(v)[Pembicara] == PembicaraTooShort
  {
    assert FieldIssues(Pembicara, v) == MinLengthIssues(v.pembicara, 2, PembicaraTooShort);
  }

  /** Jabatan Pembicara needs at least 2 characters. */
  lemma JabatanPembicaraRule(v: FormValues)
    ensures JabatanPembicara in FieldErrors(v) <==> |v.jabatanPembicara| < 2
    ensures JabatanPembicara in FieldErrors(v) ==> FieldErrors(v)[JabatanPembicara] == JabatanTooShort
  {
    assert FieldIssues(JabatanPembicara, v) == MinLengthIssues(v.jabatanPembicara, 2, JabatanTooShort);
  }

  /** Tempat needs at least 2 characters. */
  lemma TempatRule(v: FormValues)
    ensures Tempat in FieldErrors(v) <==> |v.tempat| < 2
    ensures Tempat in FieldErrors(v) ==> FieldErrors(v)[Tempat] == TempatTooShort
  {
    assert FieldIssues(Tempat, v) == MinLengthIssues(v.tempat, 2, TempatTooShort);
  }

  /** The description needs at least 10 characters. */
  lemma DescriptionRule(v: FormValues)
    ensures Description in FieldErrors(v) <==> |v.description| < 10
    ensures Description in FieldErrors(v) ==> FieldErrors(v)[Description] == DescriptionTooShort
  {
    assert FieldIssues(Description, v) == MinLengthIssues(v.description, 10, DescriptionTooShort);
  }

  /**
   * The date must be a valid Date. A missing one gets the schema's message; one
   * whose time is NaN gets zod's own "Invalid date", which the schema's message
   * does not replace.
   */
  lemma TanggalRule(v: FormValues)
    ensures Tanggal in FieldErrors(v) <==> !v.tanggal.At?
    ensures v.tanggal.NoDate? ==> FieldErrors(v)[Tanggal] == TanggalRequired
    ensures v.tanggal.InvalidDate? ==> FieldErrors(v)[Tanggal] == InvalidDateMessage
  {
    assert FieldIssues(Tanggal, v) ==
      (match v.tanggal case NoDate => [TanggalRequired] case InvalidDate => [InvalidDateMessage] case At(_) => []);
  }

  /** The report is empty exactly when every rule holds. */
  lemma EmptyReportIffSatisfied(v: FormValues)
    ensures FirstIssues(v) == map[] <==> SatisfiesSchema(v)
  {
    var report := FirstIssues(v);
    NoIssuesIffSatisfied(v);
    if SatisfiesSchema(v) {
      assert report.Keys == {};
    } else {
      var f :| FieldIssues(f, v) != [];
      assert f in report;
    }
  }

  /** The schema's parse: the values themselves when every rule holds, the error report otherwise. */
  function Validate(v: FormValues): (r: Result<FormValues, map<Field, string>>)
    ensures r.Ok? <==> SatisfiesSchema(v)
    ensures r.Ok? ==> r.value == v
    ensures r.Err? ==> r.error == FieldErrors(v) && r.error != map[]
  {
    var errors := FieldErrors(v);
    if errors == map[] then Ok(v) else Err(errors)
  }

  /** Every rule of the schema, stated field by field. */
  predicate SatisfiesSchema(v: FormValues) {
    && v.image.Some? && |v.image.value| == 1
    && v.image.value[0].size <= MaxFileSize
    && v.image.value[0].mimeType in AcceptedImageTypes
    && |v.name| >= 2
    && |v.pembicara| >= 2
    && |v.jabatanPembicara| >= 2
    && |v.tempat| >= 2
    && v.tanggal.At?
    && |v.description| >= 10
  }

  // ---------------------------------------------------------------------------
  // Properties of the report
  // ---------------------------------------------------------------------------

  /** Field f holds the same value in v and w. */
  predicate SameField(f: Field, v: FormValues, w: FormValues) {
    match f
    case Image => v.image == w.image
    case Name => v.name == w.name
    case Pembicara => v.pembicara == w.pembicara
    case JabatanPembicara => v.jabatanPembicara == w.jabatanPembicara
    case Slot => v.slot == w.slot
    case Tempat => v.tempat == w.tempat
    case Tanggal => v.tanggal == w.tanggal
    case IsFree => v.isFree == w.isFree
    case Category => v.category == w.category
    case Harga => v.harga == w.harga
    case Description => v.description == w.description
  }

  /** A violation is reported under its own field whatever the other fields hold. */
  lemma ErrorsAreFieldLocal(f: Field, v: FormValues, w: FormValues)
    requires SameField(f, v, w)
    ensures f in FieldErrors(v) <==> f in FieldErrors(w)
    ensures f in FieldErrors(v) ==> FieldErrors(v)[f] == FieldErrors(w)[f]
  {
    assert FieldIssues(f, v) == FieldIssues(f, w);
  }

  /** No field reports an issue exactly when every rule holds. */
  lemma NoIssuesIffSatisfied(v: FormValues)
    ensures (forall f :: FieldIssues(f, v) == []) <==> SatisfiesSchema(v)
  {
    if !SatisfiesSchema(v) {
      var f :=
        if !(OneFile(v.image) && FirstFileSmallEnough(v.image) && FirstFileAccepted(v.image)) then Image
        else if |v.name| < 2 then Name
        else if |v.pembicara| < 2 then Pembicara
        else if |v.jabatanPembicara| < 2 then JabatanPembicara
        else if |v.tempat| < 2 then Tempat
        else if !v.tanggal.At? then Tanggal
        else Description;
      assert FieldIssues(f, v) != [];
    }
  }
}
