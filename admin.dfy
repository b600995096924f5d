/**
  The admin page: the property list and the modal form that creates a
  property (`editingProperty` null) or edits one (`editingProperty` set),
  with its text-valued draft `formData`, the validation gate, the coercion of
  the draft into the row sent to the table, and the delete confirmation.
 */
module Admin {
  import opened Js
  import opened Remote

  /** A row of the `stoq` table as the admin page reads it; `featured` and `qty` may be null. */
  datatype Property = Property(
    id: int, name: string, kind: string, price: int, location: string,
    bedrooms: int, bathrooms: int, area: int, description: string,
    featured: Option<bool>, qty: Option<int>)

  /** `formData`: every field is the text of its input, except the `featured` checkbox. */
  datatype Draft = Draft(
    name: string, kind: string, price: string, location: string,
    bedrooms: string, bathrooms: string, area: string, description: string,
    featured: bool, qty: string)

  /** `propertyData`: the row a submit sends. */
  datatype PropertyData = PropertyData(
    name: string, kind: string, price: int, location: string,
    bedrooms: int, bathrooms: int, area: int, description: string,
    featured: bool, qty: int, barcode: string, lote: string, update: string)

  /** The writes the page sends to the table. */
  datatype Request =
    | Insert(rows: seq<PropertyData>)       // a list of new rows
    | Update(patch: PropertyData, id: int)  // new values for the row with this id
    | Delete(id: int)                       // removal of the row with this id

  /** The text inputs of the form, by their `name` attribute. */
  datatype TextField = Name | Type | Price | Location | Bedrooms | Bathrooms | Area | Description | Qty

  /** A change event: text from an input, select or textarea, or the `featured` checkbox. */
  datatype InputEvent = TextInput(field: TextField, value: string) | CheckboxInput(checked: bool)

  /** What the modal shows: nothing, the create form, or the edit form of a property. */
  datatype FormMode = Closed | Creating | Editing(id: int)

  /** The fields the validation gate requires to be non-empty. */
  const Required: set<TextField> := {Name, Price, Location, Bedrooms, Bathrooms, Area}

  function Text(d: Draft, f: TextField): string {
    match f
    case Name => d.name
    case Type => d.kind
    case Price => d.price
    case Location => d.location
    case Bedrooms => d.bedrooms
    case Bathrooms => d.bathrooms
    case Area => d.area
    case Description => d.description
    case Qty => d.qty
  }

  /** The draft after a change event: the checkbox sets `featured` to its checked state, any other input sets its own field to its text. */
  function WithInput(d: Draft, e: InputEvent): (r: Draft)
    ensures e.TextInput? ==> Text(r, e.field) == e.value && r.featured == d.featured
    ensures e.TextInput? ==> forall f :: f != e.field ==> Text(r, f) == Text(d, f)
    ensures e.CheckboxInput? ==> r.featured == e.checked && forall f :: Text(r, f) == Text(d, f)
  {
    match e
    case CheckboxInput(checked) => d.(featured := checked)
    case TextInput(field, value) =>
      match field
      case Name => d.(name := value)
      case Type => d.(kind := value)
      case Price => d.(price := value)
      case Location => d.(location := value)
      case Bedrooms => d.(bedrooms := value)
      case Bathrooms => d.(bathrooms := value)
      case Area => d.(area := value)
      case Description => d.(description := value)
      case Qty => d.(qty := value)
  }

  /** The validation gate: none of the six required fields is the (falsy) empty string. */
  predicate IsComplete(d: Draft)
    ensures IsComplete(d) <==> forall f :: f in Required ==> Text(d, f) != ""
  {
    d.name != "" && d.price != "" && d.location != "" && d.bedrooms != "" && d.bathrooms != "" && d.area != ""
  }

  /**
    The draft the page starts with and returns to: type 'casa', quantity 1,
    not featured, every other field empty. It never passes the gate.
   */
  function DefaultDraft(): (d: Draft)
    ensures !IsComplete(d)
    ensures d.kind == "casa" && ParseInt(d.qty) == Some(1) && !d.featured
    ensures forall f :: f != Type && f != Qty ==> Text(d, f) == ""
  {
    ParseIntOfString(1);
    Draft("", "casa", "", "", "", "", "", "", false, IntToString(1))
  }

  /**
    The row built from a draft that passed validation: text trimmed, numbers
    parsed with 0 as the fallback except the quantity, which falls back to 1,
    and a fresh barcode and two fresh timestamps on every submit.
   */
  function BuildRecord(d: Draft, barcode: string, lote: string, update: string): (r: PropertyData)
    ensures r.name == Trim(d.name) && r.location == Trim(d.location) && r.description == Trim(d.description)
    ensures IsTrimmed(r.name) && IsTrimmed(r.location) && IsTrimmed(r.description)
    ensures r.qty != 0
    ensures ParseInt(d.qty).Some? && ParseInt(d.qty).value != 0 ==> r.qty == ParseInt(d.qty).value
    ensures ParseInt(d.qty).None? || ParseInt(d.qty) == Some(0) ==> r.qty == 1
    ensures r.barcode == barcode && r.lote == lote && r.update == update
    ensures r.featured == d.featured && r.kind == d.kind
    ensures r.price == ParseIntOr(d.price, 0) && r.bedrooms == ParseIntOr(d.bedrooms, 0)
    ensures r.bathrooms == ParseIntOr(d.bathrooms, 0) && r.area == ParseIntOr(d.area, 0)
  {
    PropertyData(
      name := Trim(d.name),
      kind := d.kind,
      price := ParseIntOr(d.price, 0),
      location := Trim(d.location),
      bedrooms := ParseIntOr(d.bedrooms, 0),
      bathrooms := ParseIntOr(d.bathrooms, 0),
      area := ParseIntOr(d.area, 0),
      description := Trim(d.description),
      featured := d.featured,
      qty := ParseIntOr(d.qty, 1),
      barcode := barcode,
      lote := lote,
      update := update)
  }

  /** The write a submit sends: an update of the edited property by id, otherwise a one-row insert. */
  function SubmitRequest(editing: Option<Property>, data: PropertyData): (r: Request)
    ensures r.Update? <==> editing.Some?
    ensures r.Update? ==> r.id == editing.value.id && r.patch == data
    ensures r.Insert? ==> r.rows == [data]
  {
    match editing
    case Some(p) => Update(data, p.id)
    case None => Insert([data])
  }

  /**
    The draft `handleEdit` fills in from a property: text copied, numbers as
    their decimal text, not featured when the flag is null, and quantity 1
    when the quantity is null.
   */
  function EditDraft(p: Property): (d: Draft)
    ensures d.name == p.name && d.kind == p.kind && d.location == p.location && d.description == p.description
    ensures ParseInt(d.price) == Some(p.price) && ParseInt(d.bedrooms) == Some(p.bedrooms)
    ensures ParseInt(d.bathrooms) == Some(p.bathrooms) && ParseInt(d.area) == Some(p.area)
    ensures ParseInt(d.qty) == Some(p.qty.GetOr(1))
    ensures d.featured == p.featured.GetOr(false)
  {
    ParseIntOfString(p.price);
    ParseIntOfString(p.bedrooms);
    ParseIntOfString(p.bathrooms);
    ParseIntOfString(p.area);
    ParseIntOfString(p.qty.GetOr(1));
    Draft(
      name := p.name,
      kind := p.kind,
      price := IntToString(p.price),
      location := p.location,
      bedrooms := IntToString(p.bedrooms),
      bathrooms := IntToString(p.bathrooms),
      area := IntToString(p.area),
      description := p.description,
      featured := p.featured.GetOr(false),
      qty := match p.qty case Some(n) => IntToString(n) case None => "1")
  }

  /** A property with a name and a location always passes validation once loaded into the form. */
  lemma EditDraftPassesValidation(p: Property)
    requires p.name != "" && p.location != ""
    ensures IsComplete(EditDraft(p))
  {
  }

  /**
    Submitting an edit without touching the form writes the property back
    unchanged, provided its text is already trimmed and its quantity is not 0;
    only the barcode and both timestamps are new.
   */
  lemma EditRoundTrip(p: Property, barcode: string, lote: string, update: string)
    requires IsTrimmed(p.name) && IsTrimmed(p.location) && IsTrimmed(p.description)
    requires p.qty != Some(0)
    ensures BuildRecord(EditDraft(p), barcode, lote, update)
         == PropertyData(p.name, p.kind, p.price, p.location, p.bedrooms, p.bathrooms, p.area,
                         p.description, p.featured.GetOr(false), p.qty.GetOr(1), barcode, lote, update)
  {
    TrimOfTrimmed(p.name);
    TrimOfTrimmed(p.location);
    TrimOfTrimmed(p.description);
  }

  /** Submitting an unchanged edit of a property with quantity 0 stores quantity 1. */
  lemma EditOfSoldOutSetsQtyOne(p: Property, barcode: string, lote: string, update: string)
    requires p.qty == Some(0)
    ensures BuildRecord(EditDraft(p), barcode, lote, update).qty == 1
  {
  }

  /**
    The gate tests the raw text, the row holds the trimmed text: a name or
    location of white space only passes validation and is stored empty.
   */
  lemma BlankTextPassesValidation(d: Draft, barcode: string, lote: string, update: string)
    requires IsComplete(d) && AllSpace(d.name) && AllSpace(d.location)
    ensures BuildRecord(d, barcode, lote, update).name == ""
    ensures BuildRecord(d, barcode, lote, update).location == ""
  {
    TrimAllSpace(d.name);
    TrimAllSpace(d.location);
  }

  class AdminPage {
    var properties: seq<Property>
    var loading: bool
    var showForm: bool
    var editingProperty: Option<Property>
    var formData: Draft

    /** Every way of closing the form discards the draft and the edit target. */
    ghost predicate Valid()
      reads this
    {
      !showForm ==> editingProperty == None && formData == DefaultDraft()
    }

    function Mode(): FormMode
      reads this
    {
      if !showForm then Closed
      else match editingProperty
        case None => Creating
        case Some(p) => Editing(p.id)
    }

    constructor ()
      ensures Valid() && Mode() == Closed
      ensures properties == [] && loading && editingProperty == None && formData == DefaultDraft()
    {
      properties := [];
      loading := true;
      showForm := false;
      editingProperty := None;
      formData := DefaultDraft();
    }

    /** `fetchProperties`: the list is replaced by what the table returned; loading ends either way. */
    method FetchProperties(result: Fetch<Property>)
      requires Valid()
      modifies this
      ensures Valid()
      ensures properties == Reloaded(old(properties), result) && !loading
      ensures showForm == old(showForm) && editingProperty == old(editingProperty) && formData == old(formData)
    {
      properties := Reloaded(properties, result);
      loading := false;
    }

    /**
      The add button only shows the form; because closing always resets the
      draft, a closed page opens in create mode with the default draft.
     */
    method OpenForm()
      requires Valid()
      modifies this
      ensures Valid() && showForm
      ensures editingProperty == old(editingProperty) && formData == old(formData)
      ensures properties == old(properties) && loading == old(loading)
      ensures old(Mode()) == Closed ==> Mode() == Creating && formData == DefaultDraft()
    {
      showForm := true;
    }

    /** `handleInputChange`: only the named field of the draft changes. The inputs exist only while the form is shown. */
    method HandleInputChange(e: InputEvent)
      requires showForm
      modifies this
      ensures Valid()
      ensures formData == WithInput(old(formData), e)
      ensures showForm && editingProperty == old(editingProperty)
      ensures properties == old(properties) && loading == old(loading)
    {
      formData := WithInput(formData, e);
    }

    /**
      `handleSubmit`. An incomplete draft sends nothing and changes nothing.
      Otherwise the built row goes out as an update of the edited property or
      as an insert; on success the form closes, the draft resets and the list
      reloads, on an error everything stays as it was.
     */
    method HandleSubmit(barcode: string, lote: string, update: string, outcome: Outcome, reload: Fetch<Property>)
      returns (request: Option<Request>)
      requires Valid()
      modifies this
      ensures Valid()
      ensures !IsComplete(old(formData)) ==> request == None
      ensures IsComplete(old(formData)) ==>
                request == Some(SubmitRequest(old(editingProperty), BuildRecord(old(formData), barcode, lote, update)))
      ensures IsComplete(old(formData)) && outcome == Ok ==>
                Mode() == Closed && editingProperty == None && formData == DefaultDraft()
                && properties == Reloaded(old(properties), reload) && !loading
      ensures !IsComplete(old(formData)) || outcome == Err ==>
                showForm == old(showForm) && editingProperty == old(editingProperty) && formData == old(formData)
                && properties == old(properties) && loading == old(loading)
    {
      if !IsComplete(formData) {
        return None;
      }
      // a closed form holds the default draft, which has no name
      assert showForm;
      var propertyData := BuildRecord(formData, barcode, lote, update);
      request := Some(SubmitRequest(editingProperty, propertyData));
      if outcome == Ok {
        showForm := false;
        editingProperty := None;
        formData := DefaultDraft();
        properties := Reloaded(properties, reload);
        loading := false;
      }
    }

    /** `handleEdit`: edit mode for the property, with the draft filled in from it. */
    method HandleEdit(p: Property)
      modifies this
      ensures Valid() && Mode() == Editing(p.id)
      ensures editingProperty == Some(p) && formData == EditDraft(p)
      ensures properties == old(properties) && loading == old(loading)
    {
      editingProperty := Some(p);
      formData := EditDraft(p);
      showForm := true;
    }

    /**
      `handleDelete`: nothing unless the user confirms; then a delete by id,
      and a reload only when it succeeded. The form is never touched.
     */
    method HandleDelete(id: int, confirmed: bool, outcome: Outcome, reload: Fetch<Property>)
      returns (request: Option<Request>)
      requires Valid()
      modifies this
      ensures Valid()
      ensures request == if confirmed then Some(Delete(id)) else None
      ensures confirmed && outcome == Ok ==> properties == Reloaded(old(properties), reload) && !loading
      ensures !confirmed || outcome == Err ==> properties == old(properties) && loading == old(loading)
      ensures showForm == old(showForm) && editingProperty == old(editingProperty) && formData == old(formData)
    {
      if !confirmed {
        return None;
      }
      request := Some(Delete(id));
      if outcome == Ok {
        FetchProperties(reload);
      }
    }

    /** `handleCancel`: closed, no edit target, default draft, whatever the mode was. */
    method HandleCancel()
      modifies this
      ensures Valid() && Mode() == Closed
      ensures editingProperty == None && formData == DefaultDraft()
      ensures properties == old(properties) && loading == old(loading)
    {
      showForm := false;
      editingProperty := None;
      formData := DefaultDraft();
    }
  }
}
