/**
 * The company editor of src/widgets/CompanyDetails/index.tsx. The form is a plain
 * JavaScript object keyed by input name; a dotted name (`contract.no`) updates one key
 * of the nested object. Saving sends only the changed fields (never `type`) and, once
 * the update succeeded, hands the company with those fields overwritten to the page.
 */
module CompanyDetails {
  import opened Wrappers
  import opened Types
  import opened Api
  import opened Notifications
  import Strings

  const NoChangesMessage := "No changes to save"
  const UpdatedMessage := "Company details updated successfully"
  const UpdateFailedMessage := "Failed to update company details"

  /** A value of `formData`: a string, a nested object of strings, or the company's `type`. */
  datatype FormValue = Text(s: string) | Fields(m: map<string, string>) | TypeEntry(t: TypeValue)

  /** `formData`: key to value. */
  type Form = map<string, FormValue>

  /** The form filled from the company (initial state, the prop-change effect and `handleCancel`). */
  function InitialForm(c: Company): Form {
    map[
      "name" := Text(c.name),
      "shortName" := Text(c.shortName),
      "businessEntity" := Text(c.businessEntity),
      "contract" := Fields(map["no" := c.contract.no, "issue_date" := c.contract.issueDate]),
      "type" := TypeEntry(c.types)]
  }

  predicate IsText(f: Form, key: string) {
    key in f && f[key].Text?
  }

  /**
   * The shape the TypeScript type of `formData` promises: the three text fields hold
   * strings and `contract`, when present, holds an object.
   */
  predicate WellShaped(f: Form) {
    && IsText(f, "name") && IsText(f, "shortName") && IsText(f, "businessEntity")
    && ("contract" in f ==> f["contract"].Fields?)
  }

  /** The names the form's inputs and its business-entity selector write under. */
  predicate IsInputName(name: string) {
    name == "name" || name == "shortName" || name == "businessEntity" || name == "contract.no" || name == "contract.issue_date"
  }

  function Lookup(m: map<string, string>, key: string): Option<string> {
    if key in m then Some(m[key]) else None
  }

  /**
   * The updater of `handleInputChange(name, value)`; the selector's plain update of
   * `businessEntity` is the same as a plain name. For `parent.child` the previous value
   * under `parent` is kept when it is an object; anything else starts from `{}`.
   */
  function ChangedForm(f: Form, name: string, value: string): Form {
    if '.' in name then
      var pieces := Strings.Split(name, '.');
      var parent := pieces[0];
      var siblings := if parent in f && f[parent].Fields? then f[parent].m else map[];
      f[parent := Fields(siblings[pieces[1] := value])]
    else
      f[name := Text(value)]
  }

  /** A plain name sets only that key. */
  lemma ChangePlain(f: Form, name: string, value: string)
    requires '.' !in name
    ensures var r := ChangedForm(f, name, value);
            && r[name] == Text(value)
            && forall k :: k != name ==> (k in r <==> k in f) && (k in f ==> r[k] == f[k])
  {
  }

  /** `parent.child` replaces only that child key and keeps its siblings and every other key. */
  lemma ChangeNested(f: Form, parent: string, child: string, value: string)
    requires '.' !in parent && '.' !in child
    ensures var r := ChangedForm(f, parent + "." + child, value);
            && parent in r && r[parent].Fields?
            && child in r[parent].m && r[parent].m[child] == value
            && (parent in f && f[parent].Fields? ==>
                  forall k :: k != child ==> Lookup(r[parent].m, k) == Lookup(f[parent].m, k))
            && forall k :: k != parent ==> (k in r <==> k in f) && (k in f ==> r[k] == f[k])
  {
    var name := parent + "." + child;
    assert name == parent + ['.'] + child;
    Strings.SplitAfterFirst(parent, '.', child);
    Strings.SplitWithoutSeparator(child, '.');
    assert Strings.Split(name, '.') == [parent, child];
  }

  /** The initial form has the promised shape. */
  lemma InitialFormWellShaped(c: Company)
    ensures WellShaped(InitialForm(c))
  {
  }

  /** Typing into any of the form's own inputs keeps its shape. */
  lemma InputChangeKeepsShape(f: Form, name: string, value: string)
    requires WellShaped(f) && IsInputName(name)
    ensures WellShaped(ChangedForm(f, name, value))
  {
  }

  function TextOf(f: Form, key: string): string
    requires IsText(f, key)
  {
    f[key].s
  }

  /** `formData.contract` when it is there (an object, by the shape). */
  function FormContract(f: Form): Option<map<string, string>>
    requires WellShaped(f)
  {
    if "contract" in f then Some(f["contract"].m) else None
  }

  /** The contract counts as changed when `no` or `issue_date` differs from the company's. */
  predicate ContractChanged(f: Form, c: Company)
    requires WellShaped(f)
  {
    var fc := FormContract(f);
    fc.Some? && (Lookup(fc.value, "no") != Some(c.contract.no) || Lookup(fc.value, "issue_date") != Some(c.contract.issueDate))
  }

  /** The contract that is sent: each form value, or the company's where the form's is empty or missing. */
  function SentContract(f: Form, c: Company): Contract
    requires WellShaped(f) && FormContract(f).Some?
  {
    var m := FormContract(f).value;
    Contract(OrElse(Lookup(m, "no"), c.contract.no), OrElse(Lookup(m, "issue_date"), c.contract.issueDate))
  }

  /** The form agrees with the company on everything the diff looks at. */
  predicate Agrees(f: Form, c: Company)
    requires WellShaped(f)
  {
    TextOf(f, "name") == c.name && TextOf(f, "shortName") == c.shortName
    && TextOf(f, "businessEntity") == c.businessEntity && !ContractChanged(f, c)
  }

  /** `changedFields` of `handleSave`. */
  function Diff(f: Form, c: Company): (r: CompanyPatch)
    requires WellShaped(f)
    ensures r.name.Some? <==> TextOf(f, "name") != c.name
    ensures r.shortName.Some? <==> TextOf(f, "shortName") != c.shortName
    ensures r.businessEntity.Some? <==> TextOf(f, "businessEntity") != c.businessEntity
    ensures r.name.Some? ==> r.name.value == TextOf(f, "name")
    ensures r.shortName.Some? ==> r.shortName.value == TextOf(f, "shortName")
    ensures r.businessEntity.Some? ==> r.businessEntity.value == TextOf(f, "businessEntity")
    ensures r.contract.Some? <==> ContractChanged(f, c)
    ensures r.contract.Some? ==> r.contract.value == SentContract(f, c)
    ensures r.types.None?
    ensures r.id.None? && r.contactId.None? && r.status.None? && r.photos.None?
    ensures r.createdAt.None? && r.updatedAt.None?
    ensures r == NoCompanyChanges <==> Agrees(f, c)
  {
    CompanyPatch(
      None,
      None,
      if TextOf(f, "name") != c.name then Some(TextOf(f, "name")) else None,
      if TextOf(f, "shortName") != c.shortName then Some(TextOf(f, "shortName")) else None,
      if TextOf(f, "businessEntity") != c.businessEntity then Some(TextOf(f, "businessEntity")) else None,
      if ContractChanged(f, c) then Some(SentContract(f, c)) else None,
      None,
      None,
      None,
      None,
      None)
  }

  /**
   * `{ ...company, ...changedFields, contract: ... }`: every key of the patch overwrites
   * the company's; spreading the patch's complete contract over the old one key-wise
   * replaces both of its keys.
   */
  function Merge(c: Company, p: CompanyPatch): Company {
    Company(
      p.id.GetOr(c.id),
      p.contactId.GetOr(c.contactId),
      p.name.GetOr(c.name),
      p.shortName.GetOr(c.shortName),
      p.businessEntity.GetOr(c.businessEntity),
      if p.contract.Some? then Contract(p.contract.value.no, p.contract.value.issueDate) else c.contract,
      p.types.GetOr(c.types),
      p.status.GetOr(c.status),
      p.photos.GetOr(c.photos),
      p.createdAt.GetOr(c.createdAt),
      p.updatedAt.GetOr(c.updatedAt))
  }

  /**
   * The company handed to `onUpdate`: the form's three text values, the sent contract
   * when it changed, and everything else as it was.
   */
  lemma SavedCompany(f: Form, c: Company)
    requires WellShaped(f)
    ensures var m := Merge(c, Diff(f, c));
            && m.name == TextOf(f, "name") && m.shortName == TextOf(f, "shortName")
            && m.businessEntity == TextOf(f, "businessEntity")
            && m.contract == (if ContractChanged(f, c) then SentContract(f, c) else c.contract)
            && m.id == c.id && m.contactId == c.contactId && m.types == c.types && m.status == c.status
            && m.photos == c.photos && m.createdAt == c.createdAt && m.updatedAt == c.updatedAt
  {
  }

  /** The form's contract holds non-empty values under both keys. */
  predicate ContractFilledIn(f: Form)
    requires WellShaped(f)
  {
    var fc := FormContract(f);
    fc.Some? ==> Truthy(Lookup(fc.value, "no")) && Truthy(Lookup(fc.value, "issue_date"))
  }

  /** When no contract value was cleared, saving again right after a successful save finds nothing to send. */
  lemma SaveConverges(f: Form, c: Company)
    requires WellShaped(f) && ContractFilledIn(f)
    ensures Diff(f, Merge(c, Diff(f, c))) == NoCompanyChanges
  {
    SavedCompany(f, c);
  }

  /**
   * A cleared contract number counts as a change, but the value sent falls back to the
   * old one: the merged company is unchanged, and as long as the form keeps the cleared
   * number (after a failed save, say) every save sends the same patch.
   */
  lemma ClearedContractNumberIsResent(c: Company)
    requires c.contract.no != ""
    ensures var f := InitialForm(c)["contract" := Fields(map["no" := "", "issue_date" := c.contract.issueDate])];
            && WellShaped(f)
            && Diff(f, c) == NoCompanyChanges.(contract := Some(c.contract))
            && Merge(c, Diff(f, c)) == c
  {
  }

  /** A form reset by `handleCancel` has nothing to save. */
  lemma CancelLeavesNothingToSave(c: Company)
    ensures WellShaped(InitialForm(c)) && Diff(InitialForm(c), c) == NoCompanyChanges
  {
  }

  class CompanyDetailsWidget {
    /** The `company` prop. */
    var company: Company
    var form: Form
    var isEditing: bool
    var isLoading: bool
    const api: ApiClient
    const notes: NotificationCenter

    constructor (company: Company, api: ApiClient, notes: NotificationCenter)
      ensures this.company == company && form == InitialForm(company)
      ensures !isEditing && !isLoading
      ensures this.api == api && this.notes == notes
    {
      this.company := company;
      form := InitialForm(company);
      isEditing := false;
      isLoading := false;
      this.api := api;
      this.notes := notes;
    }

    /** `handleInputChange` (and the business-entity selector). */
    method InputChange(name: string, value: string)
      modifies this`form
      ensures form == ChangedForm(old(form), name, value)
    {
      if '.' in name {
        var pieces := Strings.Split(name, '.');
        var parent, child := pieces[0], pieces[1];
        var parentObj: map<string, string> := map[];
        if parent in form && form[parent].Fields? {
          parentObj := form[parent].m;
        }
        form := form[parent := Fields(parentObj[child := value])];
      } else {
        form := form[name := Text(value)];
      }
    }

    /** The effect run when the `company` prop changes: the form is refilled from the new company. */
    method PropChanged(company: Company)
      modifies this`company, this`form
      ensures this.company == company && form == InitialForm(company)
    {
      this.company := company;
      form := InitialForm(company);
    }

    /** `handleCancel`: back to the company's values, out of editing. */
    method Cancel()
      modifies this`form, this`isEditing
      ensures form == InitialForm(company) && !isEditing
    {
      form := InitialForm(company);
      isEditing := false;
    }

    /** The chain of conditional assignments that builds `changedFields` in `handleSave`. */
    method ChangedFields() returns (changed: CompanyPatch)
      requires WellShaped(form)
      ensures changed == Diff(form, company)
    {
      changed := NoCompanyChanges;
      if form["name"].s != company.name {
        changed := changed.(name := Some(form["name"].s));
      }
      if form["shortName"].s != company.shortName {
        changed := changed.(shortName := Some(form["shortName"].s));
      }
      if form["businessEntity"].s != company.businessEntity {
        changed := changed.(businessEntity := Some(form["businessEntity"].s));
      }
      if "contract" in form {
        var contract := form["contract"].m;
        var no, issueDate := Lookup(contract, "no"), Lookup(contract, "issue_date");
        var contractChanged := no != Some(company.contract.no) || issueDate != Some(company.contract.issueDate);
        if contractChanged {
          changed := changed.(contract := Some(Contract(OrElse(no, company.contract.no),
                                                        OrElse(issueDate, company.contract.issueDate))));
        }
      }
    }

    /**
     * `handleSave`, the update request succeeding or not; returns the company passed
     * to `onUpdate`, if it is called.
     */
    method Save(succeeded: bool) returns (updated: Option<Company>)
      requires notes.Valid() && WellShaped(form)
      modifies this`isEditing, this`isLoading, api, notes
      ensures notes.Valid() && !isLoading
      ensures Agrees(form, company) ==>
                && updated == None && !isEditing && unchanged(api)
                && notes.Showed(NoChangesMessage, Info)
      ensures !Agrees(form, company) ==>
                && api.localUpdateInProgress
                && api.inFlight == old(api.inFlight)
                && api.pendingResets == old(api.pendingResets) + 1
                && api.storage == old(api.storage)
                && api.authToken == CachedToken(old(api.authToken), old(api.storage))
                && api.sent == old(api.sent) + [Request(Patch, CompanyPath(company.id), HeadersFor(JsonContentType, api.authToken),
                                                        CompanyFields(Diff(form, company)))]
      ensures !Agrees(form, company) && succeeded ==>
                && updated == Some(Merge(company, Diff(form, company)))
                && !isEditing
                && notes.Showed(UpdatedMessage, Success)
      ensures !Agrees(form, company) && !succeeded ==>
                && updated == None
                && isEditing == old(isEditing)
                && notes.Showed(UpdateFailedMessage, Error)
    {
      isLoading := true;
      var changed := ChangedFields();

      updated := None;
      if changed == NoCompanyChanges {
        notes.Show(NoChangesMessage, Info);
        isEditing := false;
        isLoading := false;
        return;
      }
      assert NormalizeType(changed) == changed;
      api.UpdateCompany(company.id, changed);
      api.Settle();
      if succeeded {
        updated := Some(Merge(company, changed));
        isEditing := false;
        notes.Show(UpdatedMessage, Success);
      } else {
        notes.Show(UpdateFailedMessage, Error);
      }
      isLoading := false;
    }
  }

  /**
   * After a successful save the page hands the merged company back as the new prop, and
   * the prop-change effect refills the form: a form whose contract number was cleared
   * sends the old number once and then leaves nothing to save.
   */
  method ClearedNumberAfterSuccessfulSave(storage: map<string, string>, c: Company)
    returns (sent: Option<Contract>, changedAfter: CompanyPatch)
    requires c.contract.no != ""
    ensures sent == Some(c.contract) && changedAfter == NoCompanyChanges
  {
    var api := new ApiClient(storage);
    var notes := new NotificationCenter();
    var widget := new CompanyDetailsWidget(c, api, notes);
    ClearedContractNumberIsResent(c);
    widget.form := InitialForm(c)["contract" := Fields(map["no" := "", "issue_date" := c.contract.issueDate])];
    var before := widget.ChangedFields();
    sent := before.contract;
    var updated := widget.Save(true);
    widget.PropChanged(updated.value);
    CancelLeavesNothingToSave(c);
    changedAfter := widget.ChangedFields();
  }
}
