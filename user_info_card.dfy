/**
 * The UI state of `UserInfoCard`: the active tab, the edit mode, the three
 * password-visibility flags and the logo and certificate image slots. The
 * form fields themselves belong to the page (`UserProfiles`).
 */
module UserInfoCard {
  import opened Js

  datatype Tab = Profile | Account

  /** The keys of the `showPassword` record. */
  datatype PasswordField = Current | New | Confirm

  /** `showPassword`: one visibility flag per password input (`current`, `new`, `confirm`). */
  datatype Visibility = Visibility(currentShown: bool, newShown: bool, confirmShown: bool)

  const AllHidden: Visibility := Visibility(false, false, false)

  function Shown(v: Visibility, f: PasswordField): bool {
    match f
    case Current => v.currentShown
    case New => v.newShown
    case Confirm => v.confirmShown
  }

  /** `{ ...prev, [field]: !prev[field] }`: flips flag `f` and keeps the other two. */
  function Toggle(v: Visibility, f: PasswordField): (r: Visibility)
    ensures Shown(r, f) == !Shown(v, f)
    ensures forall g :: g != f ==> Shown(r, g) == Shown(v, g)
  {
    match f
    case Current => v.(currentShown := !v.currentShown)
    case New => v.(newShown := !v.newShown)
    case Confirm => v.(confirmShown := !v.confirmShown)
  }

  /** Toggling the same flag twice restores the record. */
  lemma ToggleTwice(v: Visibility, f: PasswordField)
    ensures Toggle(Toggle(v, f), f) == v
  {
  }

  /** The flags are independent: toggles of two fields commute. */
  lemma TogglesCommute(v: Visibility, f: PasswordField, g: PasswordField)
    ensures Toggle(Toggle(v, f), g) == Toggle(Toggle(v, g), f)
  {
  }

  /** The `type` of a password input: plain text exactly while its flag is set. */
  function PasswordInputType(v: Visibility, f: PasswordField): (t: string)
    ensures t == "text" <==> Shown(v, f)
    ensures t == "password" <==> !Shown(v, f)
  {
    if Shown(v, f) then "text" else "password"
  }

  datatype ImageKind = Logo | Certificate

  /** The button below the card. */
  datatype CardButton = SaveButton | EditButton

  /**
   * Save while editing, on either tab; Edit only when not editing and on
   * the profile tab; no button on the account tab outside edit mode.
   */
  function ButtonShown(isEditing: bool, tab: Tab): (b: Option<CardButton>)
    ensures b == Some(SaveButton) <==> isEditing
    ensures b == Some(EditButton) <==> !isEditing && tab == Profile
    ensures b.None? <==> !isEditing && tab.Account?
  {
    if isEditing then Some(SaveButton)
    else if tab == Profile then Some(EditButton)
    else None
  }

  class CardState {
    var isEditing: bool
    var activeTab: Tab
    var showPassword: Visibility
    var logoImage: Option<string>
    var certificateImage: Option<string>

    /** The initial `useState` values: not editing, profile tab, every password hidden, no images. */
    constructor ()
      ensures !isEditing && activeTab == Profile && showPassword == AllHidden
      ensures logoImage.None? && certificateImage.None?
    {
      isEditing := false;
      activeTab := Profile;
      showPassword := AllHidden;
      logoImage := None;
      certificateImage := None;
    }

    /** `handleSave`: leaves edit mode (the save itself is only logged). */
    method HandleSave()
      modifies this`isEditing
      ensures !isEditing
    {
      isEditing := false;
    }

    /** The Edit button. */
    method StartEditing()
      requires ButtonShown(isEditing, activeTab) == Some(EditButton)
      modifies this`isEditing
      ensures isEditing
    {
      isEditing := true;
    }

    method SelectTab(tab: Tab)
      modifies this`activeTab
      ensures activeTab == tab
    {
      activeTab := tab;
    }

    method TogglePassword(f: PasswordField)
      modifies this`showPassword
      ensures showPassword == Toggle(old(showPassword), f)
    {
      showPassword := Toggle(showPassword, f);
    }

    /** `removeImage(type)`: clears the logo slot for `Logo`, the certificate slot otherwise. */
    method RemoveImage(kind: ImageKind)
      modifies this`logoImage, this`certificateImage
      ensures kind == Logo ==> logoImage.None? && certificateImage == old(certificateImage)
      ensures kind == Certificate ==> certificateImage.None? && logoImage == old(logoImage)
    {
      if kind == Logo {
        logoImage := None;
      } else {
        certificateImage := None;
      }
    }

    /**
     * `handleImageUpload(e, type)` followed by the reader's `onload`: when a
     * file was chosen, its data URL `dataUrl` goes into the logo slot for
     * `Logo` and into the certificate slot otherwise; with no file nothing
     * changes.
     */
    method HandleImageUpload(kind: ImageKind, file: Option<string>, dataUrl: string)
      modifies this`logoImage, this`certificateImage
      ensures file.None? ==> logoImage == old(logoImage) && certificateImage == old(certificateImage)
      ensures file.Some? && kind == Logo ==> logoImage == Some(dataUrl) && certificateImage == old(certificateImage)
      ensures file.Some? && kind == Certificate ==> certificateImage == Some(dataUrl) && logoImage == old(logoImage)
    {
      if file.Some? {
        if kind == Logo {
          logoImage := Some(dataUrl);
        } else {
          certificateImage := Some(dataUrl);
        }
      }
    }
  }

  /** Uploading into one slot and then removing it leaves the other slot as it was. */
  method UploadThenRemove(card: CardState, kind: ImageKind, file: string, dataUrl: string)
    modifies card
    ensures kind == Logo ==> card.logoImage.None? && card.certificateImage == old(card.certificateImage)
    ensures kind == Certificate ==> card.certificateImage.None? && card.logoImage == old(card.logoImage)
  {
    card.HandleImageUpload(kind, Some(file), dataUrl);
    card.RemoveImage(kind);
  }
}
