/**
 * The admin create/edit user form. In edit mode only the changed fields are sent; the e-mail is
 * shown but disabled. The form is built before the route decides the mode, so the password
 * validators set up for creation stay in force in edit mode as well.
 */
module UserForm {
  import opened Base
  import opened Notifications
  import ServerErrors

  const PasswordMinLength := 6
  const DefaultRole := "secretary"
  const LoadErrorText := "No se pudo cargar el usuario para edición."
  const InvalidFormText := "Por favor, completa todos los campos requeridos y corrige los errores."
  const NoChangesText := "No se detectaron cambios para actualizar."

  datatype User = User(id: string, email: string, firstName: string, lastName: string, role: string)

  /** `userForm.getRawValue()`: every control, disabled ones included. */
  datatype FormValue = FormValue(firstName: string, lastName: string, email: string, password: string, role: string)

  /** The body of an update: a property is present only when it is `Some`. */
  datatype UserPatch = UserPatch(
    firstName: Option<string>, lastName: Option<string>, password: Option<string>, role: Option<string>)

  /** A request sent to the user service. */
  datatype Request = Create(data: FormValue) | Update(id: string, changes: UserPatch)

  /** `Object.keys(changedData).length === 0` */
  predicate NoChanges(p: UserPatch) {
    p.firstName.None? && p.lastName.None? && p.password.None? && p.role.None?
  }

  /**
   * The form's validity: every control required; the e-mail must also be an address (checked only
   * while the control is enabled, as Angular skips disabled controls); the password, while its
   * validators are installed, must be at least six characters.
   */
  predicate FormValid(f: FormValue, passwordValidated: bool, emailEnabled: bool, isEmail: string -> bool) {
    && f.firstName != "" && f.lastName != "" && f.role != ""
    && (emailEnabled ==> f.email != "" && isEmail(f.email))
    && (passwordValidated ==> |f.password| >= PasswordMinLength)
  }

  /** `formData.x !== this.initialUserData?.x`: with no loaded user every value counts as changed. */
  predicate Differs(value: string, initial: Option<User>, field: User -> string) {
    initial.None? || value != field(initial.value)
  }

  /**
   * The edit-mode diff against the loaded user: first name, last name and role when they differ
   * from it, the password when one was typed, and never the e-mail.
   */
  function Diff(formData: FormValue, initial: Option<User>): UserPatch {
    UserPatch(
      if Differs(formData.firstName, initial, (u: User) => u.firstName) then Some(formData.firstName) else None,
      if Differs(formData.lastName, initial, (u: User) => u.lastName) then Some(formData.lastName) else None,
      if formData.password != "" then Some(formData.password) else None,
      if Differs(formData.role, initial, (u: User) => u.role) then Some(formData.role) else None)
  }

  /**
   * The diff is empty exactly when a user was loaded, no password was typed, and first name, last
   * name and role all equal the loaded user's.
   */
  lemma DiffEmptyIff(formData: FormValue, initial: Option<User>)
    ensures NoChanges(Diff(formData, initial)) <==>
              && initial.Some? && formData.password == ""
              && formData.firstName == initial.value.firstName
              && formData.lastName == initial.value.lastName
              && formData.role == initial.value.role
  {
  }

  /** `onSubmit`'s edit-mode diff, filled one conditional assignment at a time. */
  method ChangedData(formData: FormValue, initial: Option<User>) returns (changedData: UserPatch)
    ensures changedData == Diff(formData, initial)
    ensures changedData.firstName == if Differs(formData.firstName, initial, (u: User) => u.firstName) then Some(formData.firstName) else None
    ensures changedData.lastName == if Differs(formData.lastName, initial, (u: User) => u.lastName) then Some(formData.lastName) else None
    ensures changedData.role == if Differs(formData.role, initial, (u: User) => u.role) then Some(formData.role) else None
    ensures changedData.password == if formData.password != "" then Some(formData.password) else None
  {
    changedData := UserPatch(None, None, None, None);
    if initial.None? || formData.firstName != initial.value.firstName {
      changedData := changedData.(firstName := Some(formData.firstName));
    }
    if initial.None? || formData.lastName != initial.value.lastName {
      changedData := changedData.(lastName := Some(formData.lastName));
    }
    if formData.password != "" {
      changedData := changedData.(password := Some(formData.password));
    }
    if initial.None? || formData.role != initial.value.role {
      changedData := changedData.(role := Some(formData.role));
    }
  }

  /**
   * While the password validators are installed, a valid form always carries a password of at
   * least six characters, so the edit-mode diff is never empty, whatever user was loaded.
   */
  lemma ValidatedPasswordNeverEmpty(f: FormValue, emailEnabled: bool, isEmail: string -> bool, initial: Option<User>)
    requires FormValid(f, true, emailEnabled, isEmail)
    ensures f.password != "" && |f.password| >= PasswordMinLength
    ensures !NoChanges(Diff(f, initial))
  {
    DiffEmptyIff(f, initial);
  }

  class UserFormComponent {
    /** `Validators.email`, which the model does not spell out. */
    const isEmail: string -> bool

    var form: FormValue
    /** Whether `required` and `minLength(6)` are installed on the password control. */
    var passwordValidated: bool
    var emailDisabled: bool
    var touched: bool
    var isEditMode: bool
    var userId: Option<string>
    var loading: bool
    var initialUserData: Option<User>
    /** Notifications sent, oldest first, and requests sent to the user service, oldest first. */
    var notices: seq<Notification>
    var requests: seq<Request>

    constructor(isEmail: string -> bool)
      ensures this.isEmail == isEmail
      ensures !isEditMode && userId == None && !loading && initialUserData == None
      ensures notices == [] && requests == [] && !touched
    {
      this.isEmail := isEmail;
      form := FormValue("", "", "", "", "");
      passwordValidated, emailDisabled, touched := false, false, false;
      isEditMode, userId, loading, initialUserData := false, None, false, None;
      notices, requests := [], [];
    }

    /** `initForm`: empty controls, role 'secretary', password validators cleared only when already in edit mode. */
    method InitForm()
      modifies this`form, this`passwordValidated, this`emailDisabled
      ensures form == FormValue("", "", "", "", DefaultRole)
      ensures passwordValidated == !isEditMode
      ensures !emailDisabled
    {
      form := FormValue("", "", "", "", DefaultRole);
      passwordValidated := true;
      emailDisabled := false;
      if isEditMode {
        passwordValidated := false;
      }
    }

    /**
     * `ngOnInit`: the form is built first and the route's `id` read afterwards, so a component
     * entering edit mode here keeps the password validators.
     */
    method NgOnInit(routeId: Option<string>)
      modifies this`form, this`passwordValidated, this`emailDisabled, this`userId, this`isEditMode, this`loading
      ensures form == FormValue("", "", "", "", DefaultRole) && !emailDisabled
      ensures userId == routeId
      ensures isEditMode == (old(isEditMode) || (routeId.Some? && routeId.value != ""))
      ensures passwordValidated == !old(isEditMode)
      ensures !old(isEditMode) && isEditMode ==> passwordValidated
      ensures loading == (old(loading) || (routeId.Some? && routeId.value != ""))
    {
      InitForm();
      userId := routeId;
      if routeId.Some? && routeId.value != "" {
        isEditMode := true;
        LoadUserData(routeId.value);
      }
    }

    /** `loadUserData` issues the request. */
    method LoadUserData(id: string)
      modifies this`loading
      ensures loading
    {
      loading := true;
    }

    /** The loaded user is remembered and patched into the form (password untouched); e-mail is disabled. */
    method OnUserLoaded(user: User)
      modifies this`initialUserData, this`form, this`emailDisabled, this`loading
      ensures initialUserData == Some(user)
      ensures form == FormValue(user.firstName, user.lastName, user.email, old(form).password, user.role)
      ensures emailDisabled && !loading
    {
      initialUserData := Some(user);
      form := form.(firstName := user.firstName, lastName := user.lastName, email := user.email, role := user.role);
      emailDisabled := true;
      loading := false;
    }

    method OnUserLoadError()
      modifies this`notices, this`loading
      ensures notices == old(notices) + [ErrorNote(LoadErrorText)]
      ensures !loading
    {
      notices := notices + [ErrorNote(LoadErrorText)];
      loading := false;
    }

    /**
     * `onSubmit`: an invalid form sends nothing and reports an error; in edit mode the diff is
     * sent unless it is empty; in create mode the whole raw value is sent.
     */
    method OnSubmit()
      modifies this`touched, this`notices, this`loading, this`requests
      ensures !FormValid(form, passwordValidated, !emailDisabled, isEmail) ==>
                && requests == old(requests) && touched && loading == old(loading)
                && notices == old(notices) + [ErrorNote(InvalidFormText)]
      ensures FormValid(form, passwordValidated, !emailDisabled, isEmail) && !(isEditMode && userId.Some? && userId.value != "") ==>
                requests == old(requests) + [Create(form)] && loading && notices == old(notices)
      ensures FormValid(form, passwordValidated, !emailDisabled, isEmail) && isEditMode && userId.Some? && userId.value != "" ==>
                if NoChanges(Diff(form, initialUserData)) then
                  requests == old(requests) && !loading && notices == old(notices) + [InfoNote(NoChangesText)]
                else
                  requests == old(requests) + [Update(userId.value, Diff(form, initialUserData))] && loading && notices == old(notices)
      ensures FormValid(form, passwordValidated, !emailDisabled, isEmail) ==> touched == old(touched)
      ensures FormValid(form, passwordValidated, !emailDisabled, isEmail) && passwordValidated ==> |requests| == |old(requests)| + 1
    {
      if !FormValid(form, passwordValidated, !emailDisabled, isEmail) {
        touched := true;
        notices := notices + [ErrorNote(InvalidFormText)];
        return;
      }
      loading := true;
      var formData := form;
      if isEditMode && userId.Some? && userId.value != "" {
        var changedData := ChangedData(formData, initialUserData);
        if NoChanges(changedData) {
          notices := notices + [InfoNote(NoChangesText)];
          loading := false;
          return;
        }
        requests := requests + [Update(userId.value, changedData)];
      } else {
        requests := requests + [Create(formData)];
      }
    }

    /** `Usuario actualizado/creado exitosamente.` */
    method OnSaveSuccess()
      modifies this`notices, this`loading
      ensures notices == old(notices) + [SuccessNote("Usuario " + (if isEditMode then "actualizado" else "creado") + " exitosamente.")]
      ensures !loading
    {
      notices := notices + [SuccessNote("Usuario " + (if isEditMode then "actualizado" else "creado") + " exitosamente.")];
      loading := false;
    }

    /** The server's message (array joined, else string), else the mode's default text. */
    method OnSaveError(message: ServerErrors.Message)
      modifies this`notices, this`loading
      ensures notices == old(notices)
                + [ErrorNote(ServerErrors.ErrorText(message, "No se pudo " + (if isEditMode then "actualizar" else "crear") + " el usuario."))]
      ensures !loading
    {
      var errorMsg := ServerErrors.ErrorText(message, "No se pudo " + (if isEditMode then "actualizar" else "crear") + " el usuario.");
      notices := notices + [ErrorNote(errorMsg)];
      loading := false;
    }
  }
}
