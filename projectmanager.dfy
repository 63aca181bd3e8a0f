/**
 * The project setup dialog (components/ProjectManager.tsx): the projects shown for the
 * active tab, the record the add form hands to `onAdd`, the record the edit form
 * hands to `onUpdate`, and the form state those handlers reset.
 */
module ProjectManager {
  import opened Wrappers
  import opened Text
  import opened Seqs
  import opened Types
  import SheetApi

  datatype Role = Desicrew | User

  /** `Omit<Project, 'id' | 'color'>`: what the add form hands over. */
  datatype Draft = Draft(name: string, spreadsheetId: string, category: Category, customSheets: string)

  function OfCategory(tab: Category): Project -> bool {
    (p: Project) => p.category == tab
  }

  /** `filteredProjects`. */
  function FilteredProjects(projects: seq<Project>, tab: Category): seq<Project> {
    Filter(projects, OfCategory(tab))
  }

  /** The projects shown are exactly those of the active tab, in list order. */
  lemma FilteredProjectsFacts(projects: seq<Project>, tab: Category)
    ensures forall p :: p in FilteredProjects(projects, tab) <==> p in projects && p.category == tab
    ensures Subsequence(FilteredProjects(projects, tab), projects)
  {
    FilterSubsequence(projects, OfCategory(tab));
  }

  /** The record `handleSubmit` builds from the add form. */
  function NewDraft(name: string, inputSid: string, customSheets: string, tab: Category): Draft {
    Draft(name, SheetApi.ExtractSpreadsheetId(inputSid), tab, Trim(customSheets))
  }

  /** The record `handleUpdate` builds: the original with the edited fields replaced. */
  function Edited(original: Project, editName: string, editInputSid: string, editCustomSheets: string): Project {
    original.(name := editName, spreadsheetId := SheetApi.ExtractSpreadsheetId(editInputSid),
      customSheets := Some(Trim(editCustomSheets)))
  }

  /**
   * An update keeps the id, category and color; the stored spreadsheet id is one that
   * extracts to itself and the stored custom sheets are already trimmed.
   */
  lemma EditedKeeps(original: Project, editName: string, editInputSid: string, editCustomSheets: string)
    ensures Edited(original, editName, editInputSid, editCustomSheets).id == original.id
    ensures Edited(original, editName, editInputSid, editCustomSheets).category == original.category
    ensures Edited(original, editName, editInputSid, editCustomSheets).color == original.color
    ensures SheetApi.ExtractSpreadsheetId(Edited(original, editName, editInputSid, editCustomSheets).spreadsheetId) ==
      Edited(original, editName, editInputSid, editCustomSheets).spreadsheetId
    ensures Trim(Edited(original, editName, editInputSid, editCustomSheets).customSheets.value) ==
      Edited(original, editName, editInputSid, editCustomSheets).customSheets.value
  {
    SheetApi.ExtractIdempotent(editInputSid);
    TrimIdempotent(editCustomSheets);
  }

  /**
   * Opening a saved project in the edit form and saving without changes gives the
   * same project back, when its id and custom sheets were stored by one of the forms.
   */
  lemma EditRoundTrip(p: Project, inputSid: string, customSheets: string)
    requires p.spreadsheetId == SheetApi.ExtractSpreadsheetId(inputSid)
    requires p.customSheets == Some(Trim(customSheets))
    ensures Edited(p, p.name, p.spreadsheetId, p.customSheets.GetOr("")) == p
  {
    SheetApi.ExtractIdempotent(inputSid);
    TrimIdempotent(customSheets);
  }

  /** The dialog's form state. */
  class ProjectForm {
    const isAdmin: bool
    var activeTab: Category
    var name: string
    var inputSid: string
    var customSheets: string
    var showAdd: bool
    var editingId: Option<string>
    var editName: string
    var editInputSid: string
    var editCustomSheets: string

    /** The initial state: the production tab, empty forms, nothing being edited. */
    constructor(role: Role)
      ensures isAdmin == (role == Desicrew)
      ensures activeTab == Production && name == "" && inputSid == "" && customSheets == "" && !showAdd
      ensures editingId == None && editName == "" && editInputSid == "" && editCustomSheets == ""
    {
      isAdmin := role == Desicrew;
      activeTab := Production;
      name, inputSid, customSheets, showAdd := "", "", "", false;
      editingId := None;
      editName, editInputSid, editCustomSheets := "", "", "";
    }

    /**
     * `handleSubmit`: an admin with a name and a spreadsheet input adds the draft built
     * from the form, and the add form is cleared and closed; otherwise nothing happens.
     */
    method HandleSubmit() returns (added: Option<Draft>)
      modifies this
      ensures added.Some? <==> isAdmin && old(name) != "" && old(inputSid) != ""
      ensures added.Some? ==>
        && added.value == NewDraft(old(name), old(inputSid), old(customSheets), activeTab)
        && name == "" && inputSid == "" && customSheets == "" && !showAdd
        && activeTab == old(activeTab) && editingId == old(editingId)
        && editName == old(editName) && editInputSid == old(editInputSid)
        && editCustomSheets == old(editCustomSheets)
      ensures added.None? ==> unchanged(this)
    {
      if isAdmin && name != "" && inputSid != "" {
        var sid := SheetApi.ExtractSpreadsheetId(inputSid);
        added := Some(Draft(name, sid, activeTab, Trim(customSheets)));
        name := "";
        inputSid := "";
        customSheets := "";
        showAdd := false;
      } else {
        added := None;
      }
    }

    /** `startEditing`: an admin loads the project into the edit form; others change nothing. */
    method StartEditing(p: Project)
      modifies this
      ensures !isAdmin ==> unchanged(this)
      ensures isAdmin ==>
        && editingId == Some(p.id) && editName == p.name && editInputSid == p.spreadsheetId
        && editCustomSheets == p.customSheets.GetOr("")
        && activeTab == old(activeTab) && name == old(name) && inputSid == old(inputSid)
        && customSheets == old(customSheets) && showAdd == old(showAdd)
    {
      if !isAdmin {
        return;
      }
      editingId := Some(p.id);
      editName := p.name;
      editInputSid := p.spreadsheetId;
      editCustomSheets := p.customSheets.GetOr("");
    }

    /**
     * `handleUpdate`: an admin with a name and an id input hands over the edited
     * original and closes the edit form; otherwise nothing happens.
     */
    method HandleUpdate(original: Project) returns (updated: Option<Project>)
      modifies this
      ensures updated.Some? <==> isAdmin && old(editName) != "" && old(editInputSid) != ""
      ensures updated.Some? ==>
        && updated.value == Edited(original, old(editName), old(editInputSid), old(editCustomSheets))
        && editingId == None
        && editName == old(editName) && editInputSid == old(editInputSid)
        && editCustomSheets == old(editCustomSheets)
        && activeTab == old(activeTab) && name == old(name) && inputSid == old(inputSid)
        && customSheets == old(customSheets) && showAdd == old(showAdd)
      ensures updated.None? ==> unchanged(this)
    {
      if isAdmin && editName != "" && editInputSid != "" {
        var sid := SheetApi.ExtractSpreadsheetId(editInputSid);
        updated := Some(original.(name := editName, spreadsheetId := sid, customSheets := Some(Trim(editCustomSheets))));
        editingId := None;
      } else {
        updated := None;
      }
    }
  }
}
