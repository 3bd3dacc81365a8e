/** The projects page: the new-project form, the mapping of its fields to the
    columns of the projects table, the check on an attached image, and the
    handlers that update the page's state. */
module Projects {
  import opened Wrappers

  /** The form state: a JavaScript object from field name to the text entered. */
  type FormData = map<string, string>

  /** A value of the record sent to the projects table: the text of a form
      field, `undefined` for a field the form object lacks, or a number. */
  datatype DbValue = Text(text: string) | Undefined | Number(number: int)

  /** The record inserted into the projects table, keyed by column name. */
  type DbRecord = map<string, DbValue>

  /** The nine fields of the new-project form. */
  const FormFields: set<string> :=
    {"name", "location", "client", "startDate", "endDate", "budget", "status", "assignedTeam", "description"}

  /** The ten columns a new project is written with. */
  const DbColumns: set<string> :=
    {"name", "location", "client", "start_date", "end_date", "budget", "status", "assigned_team", "description", "progress"}

  const ProgressColumn := "progress"
  const PlanningStatus := "planning"

  /** The mapping table: the column each form field is stored under. Three
      camelCase names become snake_case; every other name is kept. */
  function ColumnOf(field: string): (column: string)
  {
    match field
    case "startDate" => "start_date"
    case "endDate" => "end_date"
    case "assignedTeam" => "assigned_team"
    case _ => field
  }

  /** Reading a field of the form object: its text, or `undefined` when the
      object lacks it. */
  function FieldValue(data: FormData, field: string): (v: DbValue)
    ensures v == Undefined <==> field !in data
  {
    if field in data then Text(data[field]) else Undefined
  }

  /** `mapFormDataToDb`: the record for the projects table. It has exactly the
      ten columns, stores each form field under its column, drops every other
      key of the form object, and starts the project at progress 0. */
  function MapFormDataToDb(data: FormData): (r: DbRecord)
    ensures r.Keys == DbColumns
  {
    map[
      "name" := FieldValue(data, "name"),
      "location" := FieldValue(data, "location"),
      "client" := FieldValue(data, "client"),
      "start_date" := FieldValue(data, "startDate"),
      "end_date" := FieldValue(data, "endDate"),
      "budget" := FieldValue(data, "budget"),
      "status" := FieldValue(data, "status"),
      "assigned_team" := FieldValue(data, "assignedTeam"),
      "description" := FieldValue(data, "description"),
      "progress" := Number(0)]
  }

  /** Each form field's value is stored under that field's column, and the
      progress column holds 0 whatever the form holds. */
  lemma MapFormDataToDbColumns(data: FormData)
    ensures forall f :: f in FormFields ==>
      ColumnOf(f) in MapFormDataToDb(data) && MapFormDataToDb(data)[ColumnOf(f)] == FieldValue(data, f)
    ensures MapFormDataToDb(data)[ProgressColumn] == Number(0)
  {
    var r := MapFormDataToDb(data);
    forall f | f in FormFields ensures ColumnOf(f) in r && r[ColumnOf(f)] == FieldValue(data, f) {
      if f == "startDate" {
        assert ColumnOf(f) == "start_date";
      } else if f == "endDate" {
        assert ColumnOf(f) == "end_date";
      } else if f == "assignedTeam" {
        assert ColumnOf(f) == "assigned_team";
      } else {
        assert ColumnOf(f) == f;
      }
    }
  }

  /** Reads the form fields back out of a stored record (the inverse of the
      mapping, for the columns that hold text). */
  function DbToForm(r: DbRecord): (form: FormData)
    ensures form.Keys <= FormFields
  {
    map f | f in FormFields && ColumnOf(f) in r && r[ColumnOf(f)].Text? :: r[ColumnOf(f)].text
  }

  /** The form before anything is entered: status "planning", every other
      field empty. */
  function InitialFormData(): (f: FormData)
    ensures f.Keys == FormFields
    ensures forall k :: k in f ==> f[k] == if k == "status" then PlanningStatus else ""
  {
    map[
      "name" := "", "location" := "", "client" := "", "startDate" := "", "endDate" := "",
      "budget" := "", "status" := PlanningStatus, "assignedTeam" := "", "description" := ""]
  }

  /** The mapping table sends the nine form fields to nine distinct columns,
      which with `progress` are all ten columns. */
  lemma ColumnsOfFormFields()
    ensures (set f | f in FormFields :: ColumnOf(f)) + {ProgressColumn} == DbColumns
    ensures forall f, g :: f in FormFields && g in FormFields && ColumnOf(f) == ColumnOf(g) ==> f == g
    ensures forall f :: f in FormFields ==> ColumnOf(f) != ProgressColumn
  {
    assert ColumnOf("startDate") == "start_date";
    assert ColumnOf("endDate") == "end_date";
    assert ColumnOf("assignedTeam") == "assigned_team";
    assert ColumnOf("name") == "name";
    assert ColumnOf("location") == "location";
    assert ColumnOf("client") == "client";
    assert ColumnOf("budget") == "budget";
    assert ColumnOf("status") == "status";
    assert ColumnOf("description") == "description";
  }

  /** Every value of the form that the mapping reads survives it: reading the
      record back gives the form restricted to its nine fields. */
  lemma MapFormDataRoundTrip(data: FormData)
    ensures DbToForm(MapFormDataToDb(data)) == map f | f in FormFields && f in data :: data[f]
  {
    var r := MapFormDataToDb(data);
    MapFormDataToDbColumns(data);
    var back := DbToForm(r);
    var want := map f | f in FormFields && f in data :: data[f];
    assert forall f :: f in back <==> f in want;
    assert forall f :: f in back ==> back[f] == want[f];
  }

  /** A key outside the nine form fields never reaches the table: setting it
      leaves the mapped record unchanged. */
  lemma ExtraFieldNotForwarded(data: FormData, key: string, value: string)
    requires key !in FormFields
    ensures MapFormDataToDb(data[key := value]) == MapFormDataToDb(data)
  {
  }

  /** A form holding all nine fields maps to a record with no `undefined`
      value. */
  lemma CompleteFormHasNoUndefined(data: FormData)
    requires FormFields <= data.Keys
    ensures forall c :: c in MapFormDataToDb(data) ==> !MapFormDataToDb(data)[c].Undefined?
  {
  }

  // ---------------------------------------------------------------------
  // Image validation

  /** A chosen file: its MIME type and its size in bytes. */
  datatype ImageFile = ImageFile(mimeType: string, size: nat)

  /** The outcome of `validateImage`. */
  datatype Validation = Accepted | Rejected(error: string)

  const ValidImageTypes: seq<string> := ["image/jpeg", "image/jpg", "image/png", "image/webp"]

  /** 10 MiB. */
  const MaxImageSize: nat := 10 * 1024 * 1024

  const TypeErrorMessage := "Please upload a valid image (JPG, PNG, or WebP)"
  const SizeErrorMessage := "Image size must be less than 10MB"

  /** `validateImage`: a file is accepted exactly when its type is one of the
      four image types and it is at most 10485760 bytes. The type is checked
      first, so a file of the wrong type is reported for its type whatever its
      size. */
  function ValidateImage(file: ImageFile): (v: Validation)
    ensures v == Accepted <==> file.mimeType in ValidImageTypes && file.size <= 10485760
    ensures file.mimeType !in ValidImageTypes ==> v == Rejected(TypeErrorMessage)
    ensures file.mimeType in ValidImageTypes && file.size > 10485760 ==> v == Rejected(SizeErrorMessage)
  {
    if file.mimeType !in ValidImageTypes then Rejected(TypeErrorMessage)
    else if file.size > MaxImageSize then Rejected(SizeErrorMessage)
    else Accepted
  }

  /** The size limit is inclusive: 10485760 bytes pass, one byte more fails
      with the size message. */
  lemma ImageSizeBoundary(mimeType: string)
    requires mimeType in ValidImageTypes
    ensures ValidateImage(ImageFile(mimeType, 10485760)) == Accepted
    ensures ValidateImage(ImageFile(mimeType, 10485761)) == Rejected(SizeErrorMessage)
  {
  }

  // ---------------------------------------------------------------------
  // Page state

  /** The parts of the page's state that the form handlers update. */
  class ProjectsPage {
    var formData: FormData
    var imageFile: Option<ImageFile>
    var showForm: bool
    var loading: bool

    /** The form object always holds the nine fields. */
    predicate Valid()
      reads this
    {
      FormFields <= formData.Keys
    }

    constructor ()
      ensures Valid()
      ensures formData == InitialFormData() && imageFile == None && !showForm && loading
    {
      formData := InitialFormData();
      imageFile := None;
      showForm := false;
      loading := true;
    }

    /** `handleInputChange`: the field named by the event takes the event's
        value and no other field changes. */
    method HandleInputChange(name: string, value: string)
      requires Valid()
      modifies this`formData
      ensures Valid()
      ensures formData.Keys == old(formData).Keys + {name}
      ensures formData[name] == value
      ensures forall k :: k in old(formData) && k != name ==> formData[k] == old(formData)[k]
    {
      formData := formData[name := value];
    }

    /** `handleFileChange`: with no file chosen nothing changes; a file that
        passes validation becomes the image; one that fails clears the image
        and the validation message is shown. */
    method HandleFileChange(file: Option<ImageFile>) returns (alert: Option<string>)
      requires Valid()
      modifies this`imageFile
      ensures Valid()
      ensures file == None ==> imageFile == old(imageFile) && alert == None
      ensures file != None && ValidateImage(file.value) == Accepted ==> imageFile == file && alert == None
      ensures file != None && ValidateImage(file.value) != Accepted ==>
        imageFile == None && alert == Some(ValidateImage(file.value).error)
    {
      alert := None;
      if file.Some? {
        var validation := ValidateImage(file.value);
        if !validation.Accepted? {
          alert := Some(validation.error);
          imageFile := None;
        } else {
          imageFile := file;
        }
      }
    }

    /** `handleSubmit`, given the outcome of the insert: the record sent is the
        mapped form. After a successful insert the form is reset and hidden;
        after a failed one the form and its visibility are kept and the error
        message is shown. Either way loading ends, and the chosen image is left
        as it was. */
    method HandleSubmit(insert: Outcome<string>) returns (dbData: DbRecord, alert: Option<string>)
      requires Valid()
      modifies this`formData, this`showForm, this`loading
      ensures Valid()
      ensures dbData == MapFormDataToDb(old(formData))
      ensures forall c :: c in dbData ==> !dbData[c].Undefined?
      ensures !loading
      ensures insert == Pass ==> formData == InitialFormData() && !showForm && alert == None
      ensures insert != Pass ==>
        formData == old(formData) && showForm == old(showForm) && alert == Some(insert.error)
    {
      loading := true;
      dbData := MapFormDataToDb(formData);
      CompleteFormHasNoUndefined(formData);
      alert := None;
      if insert.Fail? {
        alert := Some(insert.error);
      } else {
        showForm := false;
        formData := InitialFormData();
        // the refresh started here sets loading before its query is awaited
        loading := true;
      }
      loading := false;
    }
  }
}
