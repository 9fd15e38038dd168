/**
 * The activity tabs of the faculty dashboard (publications, seminars, events,
 * lectures, projects). The five components hold the same state and the same
 * four handlers; only the storage prefix, the form's fields, the required
 * fields and the fields `handleEdit` defaults to "" differ. One class,
 * parametrised by a Schema, stands for all five.
 */
module ActivityTabs {
  import opened Store
  import opened RecordLists

  /** What distinguishes one tab from another. */
  datatype Schema = Schema(kind: string, fields: seq<string>, required: seq<string>, editDefaults: seq<string>)

  const Publications: Schema :=
    Schema(PublicationsKind,
           ["title", "authors", "journal", "year", "type", "doi", "description"],
           ["title", "authors", "journal", "year"],
           ["doi", "description"])

  const Seminars: Schema :=
    Schema(SeminarsKind,
           ["title", "venue", "date", "organizer", "topic", "description"],
           ["title", "venue", "date", "topic"],
           ["description"])

  const Events: Schema :=
    Schema(EventsKind,
           ["name", "type", "venue", "startDate", "endDate", "role", "organizer", "description"],
           ["name", "type", "venue", "startDate"],
           ["description"])

  const Lectures: Schema :=
    Schema(LecturesKind,
           ["title", "course", "semester", "academicYear", "department", "studentsCount", "hoursPerWeek", "description"],
           ["title", "course", "semester", "academicYear"],
           ["description"])

  const Projects: Schema :=
    Schema(ProjectsKind,
           ["title", "type", "status", "startDate", "endDate", "fundingAgency", "amount", "role", "collaborators", "description"],
           ["title", "type", "status", "startDate"],
           ["collaborators", "description"])

  /**
   * The form state. `handleEdit` spreads the whole record into it, id included,
   * and `handleSubmit` spreads it after `id: isEditing || now`, so the id it
   * carries (if any) is the one the submitted record gets.
   */
  datatype Form = Form(id: Option<string>, fields: map<string, string>)

  /** The form `resetForm` installs: every field of the schema set to "". */
  function EmptyForm(s: Schema): Form
  {
    Form(None, map name | name in s.fields :: "")
  }

  /** `formData[name]` is a non-empty string (a missing property is falsy, as "" is). */
  predicate Filled(f: Form, name: string)
  {
    name in f.fields && f.fields[name] != ""
  }

  /** The validation guard at the top of `handleSubmit`. */
  predicate RequiredFilled(s: Schema, f: Form)
  {
    forall name :: name in s.required ==> Filled(f, name)
  }

  /** `isEditing` used as a condition: both null and "" are false. */
  predicate Truthy(editing: Option<string>)
  {
    editing.Some? && editing.value != ""
  }

  /** The form `handleEdit` loads: the record spread in, each edit default set to "" when missing or empty. */
  function EditForm(s: Schema, e: Entry): (f: Form)
    ensures f.id == Some(e.id)
    ensures forall d :: d in s.editDefaults ==>
              d in f.fields && f.fields[d] == (if d in e.fields then e.fields[d] else "")
    ensures forall name :: name in e.fields ==> name in f.fields
    ensures forall name :: name in e.fields && name !in s.editDefaults ==> f.fields[name] == e.fields[name]
    ensures forall name :: name in f.fields ==> name in e.fields || name in s.editDefaults
  {
    Form(Some(e.id), e.fields + map d | d in s.editDefaults :: if d in e.fields then e.fields[d] else "")
  }

  /** The record `{ id: isEditing || Date.now().toString(), ...formData }`. */
  function NewEntry(f: Form, editing: Option<string>, now: string): Entry
  {
    Entry(if f.id.Some? then f.id.value else if Truthy(editing) then editing.value else now, f.fields)
  }

  /** The list a submit that passed validation produces. */
  function Submitted(records: seq<Entry>, editing: Option<string>, entry: Entry): seq<Entry>
  {
    if Truthy(editing) then ReplaceById(records, editing.value, entry) else records + [entry]
  }

  /** The state and handlers shared by the five activity tabs. */
  class ActivityTab {
    const schema: Schema
    const store: LocalStorage
    var records: seq<Entry>
    var isEditing: Option<string>
    var form: Form

    /** The form carries an id exactly when, and as, an edit is in progress. */
    ghost predicate Valid()
      reads this
    {
      form.id == isEditing
    }

    /** The key `save<Kind>` writes: the tab's kind and the session pointer's id at the time of the write. */
    function StorageKey(): string
      reads store
    {
      ListKey(schema.kind, SessionId(store.currentUser))
    }

    /** Mounting the tab: empty state, then `load<Kind>`. */
    constructor (schema: Schema, store: LocalStorage)
      ensures this.schema == schema && this.store == store
      ensures Valid() && isEditing == None && form == EmptyForm(schema)
      ensures records == StoredList(store.lists, ListKey(schema.kind, SessionId(store.currentUser)))
    {
      this.schema := schema;
      this.store := store;
      records := [];
      isEditing := None;
      form := EmptyForm(schema);
      new;
      Load();
    }

    /** `load<Kind>`: takes the stored list when the key is present; otherwise the list stays as it was. */
    method Load()
      modifies this`records
      ensures records == if StorageKey() in store.lists then store.lists[StorageKey()] else old(records)
    {
      var key := StorageKey();
      if key in store.lists {
        records := store.lists[key];
      }
    }

    /** `save<Kind>`: writes the whole list under the current key and makes it the tab's list. */
    method Save(updated: seq<Entry>)
      modifies this`records, store`lists
      ensures store.lists == old(store.lists)[StorageKey() := updated]
      ensures records == updated
    {
      store.lists := store.lists[StorageKey() := updated];
      records := updated;
    }

    /** An input's `onChange`: one form field takes a new value. */
    method SetField(name: string, value: string)
      requires Valid()
      requires name in schema.fields
      modifies this`form
      ensures Valid()
      ensures form == old(form).(fields := old(form).fields[name := value])
    {
      form := form.(fields := form.fields[name := value]);
    }

    /** `handleSubmit`: validation, then append (create) or replace by id (edit), save, and reset. */
    method HandleSubmit(now: string) returns (accepted: bool)
      requires Valid()
      modifies this, store`lists
      ensures Valid()
      ensures accepted <==> RequiredFilled(schema, old(form))
      ensures !accepted ==>
                records == old(records) && isEditing == old(isEditing) && form == old(form)
                && store.lists == old(store.lists)
      ensures accepted ==> records == Submitted(old(records), old(isEditing), NewEntry(old(form), old(isEditing), now))
      ensures accepted ==> store.lists == old(store.lists)[StorageKey() := records] && store.lists[StorageKey()] == records
      ensures accepted ==> isEditing == None && form.id == None
      ensures accepted ==> forall name :: name in schema.fields ==> name in form.fields && form.fields[name] == ""
      ensures accepted ==> forall name :: name in form.fields ==> name in schema.fields
      ensures accepted && !Truthy(old(isEditing)) ==>
                |records| == |old(records)| + 1 && records[..|old(records)|] == old(records)
                && records[|old(records)|].fields == old(form).fields
                && (old(isEditing) == None ==> records[|old(records)|].id == now)
      ensures accepted && Truthy(old(isEditing)) ==>
                |records| == |old(records)|
                && forall k :: 0 <= k < |records| ==>
                     records[k] == if old(records)[k].id == old(isEditing).value
                                   then Entry(old(isEditing).value, old(form).fields)
                                   else old(records)[k]
      ensures accepted && Truthy(old(isEditing)) && !HasId(old(records), old(isEditing).value) ==>
                records == old(records)
    {
      if !RequiredFilled(schema, form) {
        accepted := false;
        return;
      }
      var entry := NewEntry(form, isEditing, now);
      var updated;
      if Truthy(isEditing) {
        updated := ReplaceById(records, isEditing.value, entry);
      } else {
        updated := records + [entry];
      }
      Save(updated);
      ResetForm();
      accepted := true;
    }

    /** `handleEdit`: the record goes into the form and its id becomes the edited id. */
    method HandleEdit(e: Entry)
      modifies this`form, this`isEditing
      ensures Valid()
      ensures form == EditForm(schema, e) && isEditing == Some(e.id)
    {
      form := EditForm(schema, e);
      isEditing := Some(e.id);
    }

    /** `handleDelete`: removes every record with the id and saves; the edit in progress is left alone. */
    method HandleDelete(id: string)
      requires Valid()
      modifies this`records, store`lists
      ensures Valid()
      ensures records == RemoveById(old(records), id)
      ensures store.lists == old(store.lists)[StorageKey() := records]
      ensures isEditing == old(isEditing) && form == old(form)
    {
      var updated := RemoveById(records, id);
      Save(updated);
    }

    /** `resetForm` (also the Cancel button): empty form, no edit in progress. */
    method ResetForm()
      modifies this`form, this`isEditing
      ensures Valid()
      ensures isEditing == None && form == EmptyForm(schema)
    {
      form := EmptyForm(schema);
      isEditing := None;
    }
  }

  /** PublicationsTab mounted on the store. */
  method MountPublicationsTab(store: LocalStorage) returns (tab: ActivityTab)
    ensures fresh(tab) && tab.Valid() && tab.isEditing == None && tab.schema == Publications && tab.store == store
    ensures tab.form == EmptyForm(Publications)
    ensures tab.records == StoredList(store.lists, ListKey(PublicationsKind, SessionId(store.currentUser)))
  {
    tab := new ActivityTab(Publications, store);
  }

  /** SeminarsTab mounted on the store. */
  method MountSeminarsTab(store: LocalStorage) returns (tab: ActivityTab)
    ensures fresh(tab) && tab.Valid() && tab.isEditing == None && tab.schema == Seminars && tab.store == store
    ensures tab.form == EmptyForm(Seminars)
    ensures tab.records == StoredList(store.lists, ListKey(SeminarsKind, SessionId(store.currentUser)))
  {
    tab := new ActivityTab(Seminars, store);
  }

  /** EventsTab mounted on the store. */
  method MountEventsTab(store: LocalStorage) returns (tab: ActivityTab)
    ensures fresh(tab) && tab.Valid() && tab.isEditing == None && tab.schema == Events && tab.store == store
    ensures tab.form == EmptyForm(Events)
    ensures tab.records == StoredList(store.lists, ListKey(EventsKind, SessionId(store.currentUser)))
  {
    tab := new ActivityTab(Events, store);
  }

  /** LecturesTab mounted on the store. */
  method MountLecturesTab(store: LocalStorage) returns (tab: ActivityTab)
    ensures fresh(tab) && tab.Valid() && tab.isEditing == None && tab.schema == Lectures && tab.store == store
    ensures tab.form == EmptyForm(Lectures)
    ensures tab.records == StoredList(store.lists, ListKey(LecturesKind, SessionId(store.currentUser)))
  {
    tab := new ActivityTab(Lectures, store);
  }

  /** ProjectsTab mounted on the store. */
  method MountProjectsTab(store: LocalStorage) returns (tab: ActivityTab)
    ensures fresh(tab) && tab.Valid() && tab.isEditing == None && tab.schema == Projects && tab.store == store
    ensures tab.form == EmptyForm(Projects)
    ensures tab.records == StoredList(store.lists, ListKey(ProjectsKind, SessionId(store.currentUser)))
  {
    tab := new ActivityTab(Projects, store);
  }

  /** The publications guard rejects a form exactly when title, authors, journal or year is empty. */
  lemma PublicationsValidation(f: Form)
    ensures RequiredFilled(Publications, f) <==>
              Filled(f, "title") && Filled(f, "authors") && Filled(f, "journal") && Filled(f, "year")
  {
  }

  /** The seminars guard rejects a form exactly when title, venue, date or topic is empty. */
  lemma SeminarsValidation(f: Form)
    ensures RequiredFilled(Seminars, f) <==>
              Filled(f, "title") && Filled(f, "venue") && Filled(f, "date") && Filled(f, "topic")
  {
  }

  /** The events guard rejects a form exactly when name, type, venue or startDate is empty. */
  lemma EventsValidation(f: Form)
    ensures RequiredFilled(Events, f) <==>
              Filled(f, "name") && Filled(f, "type") && Filled(f, "venue") && Filled(f, "startDate")
  {
  }

  /** The lectures guard rejects a form exactly when title, course, semester or academicYear is empty. */
  lemma LecturesValidation(f: Form)
    ensures RequiredFilled(Lectures, f) <==>
              Filled(f, "title") && Filled(f, "course") && Filled(f, "semester") && Filled(f, "academicYear")
  {
  }

  /** The projects guard rejects a form exactly when title, type, status or startDate is empty. */
  lemma ProjectsValidation(f: Form)
    ensures RequiredFilled(Projects, f) <==>
              Filled(f, "title") && Filled(f, "type") && Filled(f, "status") && Filled(f, "startDate")
  {
  }

  /** An edit started from any record and submitted right away writes that record back with the defaults filled in, at every position with its id. */
  lemma EditThenSubmit(s: Schema, records: seq<Entry>, e: Entry, now: string)
    requires e.id != ""
    ensures var entry := NewEntry(EditForm(s, e), Some(e.id), now);
            entry.id == e.id && entry.fields == EditForm(s, e).fields
            && Submitted(records, Some(e.id), entry) == ReplaceById(records, e.id, entry)
  {
  }
}
