/**
 * The profile page (`UserProfiles`): its form state and the three merges
 * that fill it and the stored user. The first load from storage treats
 * every falsy value as absent (`||`); the fresh-profile merges treat only
 * `null` and `undefined` as absent (`??`).
 *
 * The stored user and the profile are JSON values (`Js.Value`); the
 * profile request itself is an outcome passed in.
 */
module UserProfiles {
  import opened Js
  import Storage

  /** The form's keys. */
  datatype Field =
    | Name | Email | CountryCode | Phone
    | CurrentPassword | NewPassword | ConfirmPassword
    | BusinessName | BusinessCountry | BusinessCurrency | BusinessAddress

  /** `formData`. A merge can place any JSON value in a field, so fields are values. */
  datatype ProfileForm = ProfileForm(
    name: Value, email: Value, countryCode: Value, phone: Value,
    currentPassword: Value, newPassword: Value, confirmPassword: Value,
    businessName: Value, businessCountry: Value, businessCurrency: Value, businessAddress: Value)

  const Empty: Value := Str("")

  /** The initial state: every field the empty string. */
  const EmptyProfileForm: ProfileForm :=
    ProfileForm(Empty, Empty, Empty, Empty, Empty, Empty, Empty, Empty, Empty, Empty, Empty)

  function FieldOf(f: ProfileForm, field: Field): Value {
    match field
    case Name => f.name
    case Email => f.email
    case CountryCode => f.countryCode
    case Phone => f.phone
    case CurrentPassword => f.currentPassword
    case NewPassword => f.newPassword
    case ConfirmPassword => f.confirmPassword
    case BusinessName => f.businessName
    case BusinessCountry => f.businessCountry
    case BusinessCurrency => f.businessCurrency
    case BusinessAddress => f.businessAddress
  }

  /** `{ ...prev, [name]: value }`: only the named field changes. */
  function WithField(f: ProfileForm, field: Field, v: Value): (r: ProfileForm)
    ensures FieldOf(r, field) == v
    ensures forall g :: g != field ==> FieldOf(r, g) == FieldOf(f, g)
  {
    match field
    case Name => f.(name := v)
    case Email => f.(email := v)
    case CountryCode => f.(countryCode := v)
    case Phone => f.(phone := v)
    case CurrentPassword => f.(currentPassword := v)
    case NewPassword => f.(newPassword := v)
    case ConfirmPassword => f.(confirmPassword := v)
    case BusinessName => f.(businessName := v)
    case BusinessCountry => f.(businessCountry := v)
    case BusinessCurrency => f.(businessCurrency := v)
    case BusinessAddress => f.(businessAddress := v)
  }

  /** The empty object `{}`. */
  const EmptyObject: Value := Obj(map[])

  // ----- First load from storage -----

  /** `x || ""` */
  function OrEmpty(o: Option<Value>): (r: Value)
    ensures IsTruthy(o) ==> r == o.value
    ensures !IsTruthy(o) ==> r == Empty
  {
    Or(o, Some(Empty)).value
  }

  /** `user?.businessProfile || {}` */
  function StoredBusiness(user: Value): (b: Option<Value>)
    ensures IsTruthy(Get(Some(user), "businessProfile")) ==> b == Get(Some(user), "businessProfile")
    ensures !IsTruthy(Get(Some(user), "businessProfile")) ==> b == Some(EmptyObject)
  {
    Or(Get(Some(user), "businessProfile"), Some(EmptyObject))
  }

  /**
   * The fast first render: a falsy stored user leaves the form alone;
   * otherwise name, email, phone (from `mobileNumber`) and the business
   * fields (from `businessProfile`'s `businessName`, `country`, `currency`
   * and `address`) are set, each falling back to `""` when falsy. The
   * country code and the passwords are kept.
   */
  function InitialLoad(prev: ProfileForm, stored: Value): (r: ProfileForm)
    ensures !Truthy(stored) ==> r == prev
    ensures Truthy(stored) ==>
      var business := StoredBusiness(stored);
      && r.name == OrEmpty(Get(Some(stored), "name"))
      && r.email == OrEmpty(Get(Some(stored), "email"))
      && r.phone == OrEmpty(Get(Some(stored), "mobileNumber"))
      && r.businessName == OrEmpty(Get(business, "businessName"))
      && r.businessCountry == OrEmpty(Get(business, "country"))
      && r.businessCurrency == OrEmpty(Get(business, "currency"))
      && r.businessAddress == OrEmpty(Get(business, "address"))
    ensures r.countryCode == prev.countryCode && r.currentPassword == prev.currentPassword
    ensures r.newPassword == prev.newPassword && r.confirmPassword == prev.confirmPassword
  {
    if !Truthy(stored) then prev
    else
      var user := Some(stored);
      var business := StoredBusiness(stored);
      prev.(name := OrEmpty(Get(user, "name")),
            email := OrEmpty(Get(user, "email")),
            phone := OrEmpty(Get(user, "mobileNumber")),
            businessName := OrEmpty(Get(business, "businessName")),
            businessCountry := OrEmpty(Get(business, "country")),
            businessCurrency := OrEmpty(Get(business, "currency")),
            businessAddress := OrEmpty(Get(business, "address")))
  }

  /** The seven fields the first load sets. */
  predicate LoadedField(field: Field) {
    field in {Name, Email, Phone, BusinessName, BusinessCountry, BusinessCurrency, BusinessAddress}
  }

  /** After the first load from a stored user, each loaded field is truthy or `""`: no `0`, `false` or `null` survives. */
  lemma LoadedFieldsTruthyOrEmpty(prev: ProfileForm, stored: Value, field: Field)
    requires Truthy(stored) && LoadedField(field)
    ensures Truthy(FieldOf(InitialLoad(prev, stored), field)) || FieldOf(InitialLoad(prev, stored), field) == Empty
  {
  }

  // ----- The fresh profile -----

  /** `x ?? fallback` with a fallback that is present. */
  function CoalesceTo(o: Option<Value>, fallback: Value): (r: Value)
    ensures !IsNullish(o) ==> r == o.value
    ensures IsNullish(o) ==> r == fallback
  {
    Coalesce(o, Some(fallback)).value
  }

  /** `profile?.data || {}` */
  function ProfileData(profile: Option<Value>): (p: Option<Value>)
    ensures IsTruthy(Get(profile, "data")) ==> p == Get(profile, "data")
    ensures !IsTruthy(Get(profile, "data")) ==> p == Some(EmptyObject)
  {
    Or(Get(profile, "data"), Some(EmptyObject))
  }

  /** `p?.key ?? p?.businessProfile?.key`: the top-level property, else the one in `businessProfile`. */
  function FromProfile(p: Option<Value>, key: string, nestedKey: string): (r: Option<Value>)
    ensures !IsNullish(Get(p, key)) ==> r == Get(p, key)
    ensures IsNullish(Get(p, key)) ==> r == Get(Get(p, "businessProfile"), nestedKey)
  {
    Coalesce(Get(p, key), Get(Get(p, "businessProfile"), nestedKey))
  }

  /**
   * The fresh-profile merge into the form: each field takes `p`'s value
   * unless it is `null`/`undefined`, the business fields then try
   * `p.businessProfile`, and the previous value comes last; the country
   * code and the passwords are kept.
   */
  function FreshMerge(prev: ProfileForm, p: Option<Value>): (r: ProfileForm)
    ensures r.name == CoalesceTo(Get(p, "name"), prev.name)
    ensures r.email == CoalesceTo(Get(p, "email"), prev.email)
    ensures r.phone == CoalesceTo(Get(p, "mobileNumber"), prev.phone)
    ensures r.businessName == CoalesceTo(FromProfile(p, "businessName", "businessName"), prev.businessName)
    ensures r.businessCountry == CoalesceTo(FromProfile(p, "country", "country"), prev.businessCountry)
    ensures r.businessCurrency == CoalesceTo(FromProfile(p, "currency", "currency"), prev.businessCurrency)
    ensures r.businessAddress == CoalesceTo(FromProfile(p, "address", "address"), prev.businessAddress)
    ensures r.countryCode == prev.countryCode && r.currentPassword == prev.currentPassword
    ensures r.newPassword == prev.newPassword && r.confirmPassword == prev.confirmPassword
  {
    prev.(name := CoalesceTo(Get(p, "name"), prev.name),
          email := CoalesceTo(Get(p, "email"), prev.email),
          phone := CoalesceTo(Get(p, "mobileNumber"), prev.phone),
          businessName := CoalesceTo(FromProfile(p, "businessName", "businessName"), prev.businessName),
          businessCountry := CoalesceTo(FromProfile(p, "country", "country"), prev.businessCountry),
          businessCurrency := CoalesceTo(FromProfile(p, "currency", "currency"), prev.businessCurrency),
          businessAddress := CoalesceTo(FromProfile(p, "address", "address"), prev.businessAddress))
  }

  /** A profile with nothing in it (`{}`) leaves the form as it was. */
  lemma EmptyProfileKeepsForm(prev: ProfileForm)
    ensures FreshMerge(prev, Some(EmptyObject)) == prev
  {
  }

  /**
   * The two notions of absent disagree: the fresh merge lets an API `""` or
   * `0` overwrite the previous value and falls back only on `null` or
   * `undefined`, while the first load turns a stored `0` into `""`.
   */
  lemma EmptyStringOverridesOnlyInFreshMerge(prev: ProfileForm)
    requires prev.name == Str("Ada")
    ensures FreshMerge(prev, Some(Obj(map["name" := Str("")]))).name == Str("")
    ensures FreshMerge(prev, Some(Obj(map["name" := Num(0)]))).name == Num(0)
    ensures InitialLoad(prev, Obj(map["name" := Num(0)])).name == Empty
    ensures FreshMerge(prev, Some(Obj(map["mobileNumber" := Null]))).phone == prev.phone
  {
  }

  /** The top-level business field wins over `businessProfile`, which wins over the previous value. */
  lemma BusinessFieldPrecedence(prev: ProfileForm, top: Value, nested: Value)
    requires top != Null && nested != Null
    ensures FreshMerge(prev, Some(Obj(map["country" := top, "businessProfile" := Obj(map["country" := nested])]))).businessCountry == top
    ensures FreshMerge(prev, Some(Obj(map["businessProfile" := Obj(map["country" := nested])]))).businessCountry == nested
    ensures FreshMerge(prev, Some(Obj(map["country" := Null, "businessProfile" := Obj(map["country" := nested])]))).businessCountry == nested
  {
    var p1 := Some(Obj(map["country" := top, "businessProfile" := Obj(map["country" := nested])]));
    assert Get(p1, "country") == Some(top);
    var p2 := Some(Obj(map["businessProfile" := Obj(map["country" := nested])]));
    assert Get(p2, "country") == None;
    assert Get(Get(p2, "businessProfile"), "country") == Some(nested);
    var p3 := Some(Obj(map["country" := Null, "businessProfile" := Obj(map["country" := nested])]));
    assert Get(p3, "country") == Some(Null);
    assert Get(Get(p3, "businessProfile"), "country") == Some(nested);
  }

  // ----- The stored user -----

  /** The keys of the stored user the merge sets. */
  const UserLevelKeys: set<string> := {"name", "email", "mobileNumber", "businessProfile"}

  /** The keys of the stored `businessProfile` the merge sets. */
  const BusinessKeys: set<string> := {"businessName", "country", "currency", "address", "logo", "certificate"}

  /** `prevUser?.businessProfile || {}`, spread. */
  function PrevBusiness(prevUser: Value): map<string, Value> {
    Spread(Or(Get(Some(prevUser), "businessProfile"), Some(EmptyObject)))
  }

  /** `{ ...(prevUser?.businessProfile || {}), ... }` */
  function MergedBusiness(prevUser: Value, p: Option<Value>): map<string, Value> {
    var prevBusiness := Get(Some(prevUser), "businessProfile");
    var m0 := PrevBusiness(prevUser);
    var m1 := SetProperty(m0, "businessName", Coalesce(FromProfile(p, "businessName", "businessName"), Get(prevBusiness, "businessName")));
    var m2 := SetProperty(m1, "country", Coalesce(FromProfile(p, "country", "country"), Get(prevBusiness, "country")));
    var m3 := SetProperty(m2, "currency", Coalesce(FromProfile(p, "currency", "currency"), Get(prevBusiness, "currency")));
    var m4 := SetProperty(m3, "address", Coalesce(FromProfile(p, "address", "address"), Get(prevBusiness, "address")));
    var m5 := SetProperty(m4, "logo", Coalesce(Get(p, "logo"), Get(prevBusiness, "logo")));
    SetProperty(m5, "certificate", Coalesce(Get(p, "certificate"), Get(prevBusiness, "certificate")))
  }

  /**
   * The merged business profile keeps every key of the stored one that the
   * merge does not set, with its value, and adds no key besides the six.
   */
  lemma MergedBusinessKeepsOtherKeys(prevUser: Value, p: Option<Value>)
    ensures var b := MergedBusiness(prevUser, p);
      && (forall k :: k in PrevBusiness(prevUser) && k !in BusinessKeys ==> k in b && b[k] == PrevBusiness(prevUser)[k])
      && (forall k :: k in b ==> k in BusinessKeys || k in PrevBusiness(prevUser))
  {
    var b := MergedBusiness(prevUser, p);
    forall k | k in PrevBusiness(prevUser) && k !in BusinessKeys
      ensures k in b && b[k] == PrevBusiness(prevUser)[k]
    {
      assert k != "businessName" && k != "country" && k != "currency" && k != "address";
      assert k != "logo" && k != "certificate";
    }
    forall k | k in b && k !in BusinessKeys
      ensures k in PrevBusiness(prevUser)
    {
      assert k != "businessName" && k != "country" && k != "currency" && k != "address";
      assert k != "logo" && k != "certificate";
    }
  }

  /**
   * The four business fields take the profile's top-level value, then its
   * `businessProfile` value, then the stored one, each step skipping only
   * null and undefined.
   */
  lemma MergedBusinessFields(prevUser: Value, p: Option<Value>)
    ensures var prevBusiness := Get(Some(prevUser), "businessProfile");
      var b := MergedBusiness(prevUser, p);
      && Lookup(b, "businessName") == Coalesce(FromProfile(p, "businessName", "businessName"), Get(prevBusiness, "businessName"))
      && Lookup(b, "country") == Coalesce(FromProfile(p, "country", "country"), Get(prevBusiness, "country"))
      && Lookup(b, "currency") == Coalesce(FromProfile(p, "currency", "currency"), Get(prevBusiness, "currency"))
      && Lookup(b, "address") == Coalesce(FromProfile(p, "address", "address"), Get(prevBusiness, "address"))
  {
    assert "country"[0] != "address"[0];
  }

  /**
   * `logo` and `certificate` take the profile's top-level value, then the
   * stored one, skipping only null and undefined.
   */
  lemma MergedImageFields(prevUser: Value, p: Option<Value>)
    ensures var prevBusiness := Get(Some(prevUser), "businessProfile");
      var b := MergedBusiness(prevUser, p);
      && Lookup(b, "logo") == Coalesce(Get(p, "logo"), Get(prevBusiness, "logo"))
      && Lookup(b, "certificate") == Coalesce(Get(p, "certificate"), Get(prevBusiness, "certificate"))
  {
  }

  /** The property `key` of an object's fields, `undefined` when missing. */
  function Lookup(m: map<string, Value>, key: string): (r: Option<Value>)
    ensures r.Some? <==> key in m
    ensures r.Some? ==> r.value == m[key]
  {
    if key in m then Some(m[key]) else None
  }

  /** `(stored as any) || {}` */
  function PrevUser(stored: Value): (u: Value)
    ensures Truthy(stored) ==> u == stored
    ensures !Truthy(stored) ==> u == EmptyObject
  {
    Or(Some(stored), Some(EmptyObject)).value
  }

  /**
   * The user written back to storage: the previous user's keys with the
   * four the merge sets replaced; a key whose result is `undefined` is
   * absent from the serialised object.
   */
  function StoredMerge(stored: Value, p: Option<Value>): (merged: Value)
    ensures merged.Obj?
  {
    var prevUser := PrevUser(stored);
    var m0 := Spread(Some(prevUser));
    var m1 := SetProperty(m0, "name", Coalesce(Get(p, "name"), Get(Some(prevUser), "name")));
    var m2 := SetProperty(m1, "email", Coalesce(Get(p, "email"), Get(Some(prevUser), "email")));
    var m3 := SetProperty(m2, "mobileNumber", Coalesce(Get(p, "mobileNumber"), Get(Some(prevUser), "mobileNumber")));
    Obj(m3["businessProfile" := Obj(MergedBusiness(prevUser, p))])
  }

  /**
   * The stored user keeps every key of the previous user that the merge
   * does not set, with its value, and adds no key besides those four.
   */
  lemma StoredMergeKeepsOtherKeys(stored: Value, p: Option<Value>)
    ensures var prevUser := Spread(Some(PrevUser(stored)));
      var merged := StoredMerge(stored, p).fields;
      && (forall k :: k in prevUser && k !in UserLevelKeys ==> k in merged && merged[k] == prevUser[k])
      && (forall k :: k in merged ==> k in UserLevelKeys || k in prevUser)
  {
    var prevUser := Spread(Some(PrevUser(stored)));
    var merged := StoredMerge(stored, p).fields;
    forall k | k in prevUser && k !in UserLevelKeys
      ensures k in merged && merged[k] == prevUser[k]
    {
      assert k != "name" && k != "email" && k != "mobileNumber" && k != "businessProfile";
    }
    forall k | k in merged && k !in UserLevelKeys
      ensures k in prevUser
    {
      assert k != "name" && k != "email" && k != "mobileNumber" && k != "businessProfile";
    }
  }

  /**
   * `name`, `email` and `mobileNumber` take the profile's value unless it
   * is null or undefined, else the previous user's; `businessProfile` is
   * the merged business profile.
   */
  lemma StoredMergeFields(stored: Value, p: Option<Value>)
    ensures var prevUser := PrevUser(stored);
      var merged := StoredMerge(stored, p).fields;
      && Lookup(merged, "name") == Coalesce(Get(p, "name"), Get(Some(prevUser), "name"))
      && Lookup(merged, "email") == Coalesce(Get(p, "email"), Get(Some(prevUser), "email"))
      && Lookup(merged, "mobileNumber") == Coalesce(Get(p, "mobileNumber"), Get(Some(prevUser), "mobileNumber"))
      && Lookup(merged, "businessProfile") == Some(Obj(MergedBusiness(prevUser, p)))
  {
  }

  /**
   * `logo` and `certificate` have no `businessProfile` step: a logo that
   * the API sends only inside `businessProfile` is ignored and the stored
   * one is kept, while the business name in the same place is taken.
   */
  lemma LogoSkipsBusinessProfile(stored: Value, logo: Value, name: Value)
    requires Truthy(stored) && Get(Some(stored), "businessProfile").Some?
    requires logo != Null && name != Null
    ensures var p := Some(Obj(map["businessProfile" := Obj(map["logo" := logo, "businessName" := name])]));
      var b := MergedBusiness(PrevUser(stored), p);
      && Lookup(b, "logo") == Coalesce(None, Get(Get(Some(stored), "businessProfile"), "logo"))
      && Lookup(b, "businessName") == Some(name)
  {
    var p := Some(Obj(map["businessProfile" := Obj(map["logo" := logo, "businessName" := name])]));
    MergedBusinessFields(PrevUser(stored), p);
    MergedImageFields(PrevUser(stored), p);
    assert Get(p, "logo") == None;
    assert Get(p, "businessName") == None;
    assert Get(Get(p, "businessProfile"), "businessName") == Some(name);
  }

  /**
   * For a field the profile sets, the form and the stored user agree: the
   * fresh merge and the stored merge pick the same value.
   */
  lemma MergesAgreeOnProfileValues(prev: ProfileForm, stored: Value, p: Option<Value>)
    ensures !IsNullish(Get(p, "name")) ==> Lookup(StoredMerge(stored, p).fields, "name") == Some(FreshMerge(prev, p).name)
    ensures !IsNullish(Get(p, "mobileNumber")) ==>
      Lookup(StoredMerge(stored, p).fields, "mobileNumber") == Some(FreshMerge(prev, p).phone)
    ensures !IsNullish(FromProfile(p, "country", "country")) ==>
      Lookup(MergedBusiness(PrevUser(stored), p), "country") == Some(FreshMerge(prev, p).businessCountry)
  {
    StoredMergeFields(stored, p);
    MergedBusinessFields(PrevUser(stored), p);
  }

  // ----- The page -----

  /** What `AuthService.getProfile()` did: the profile it resolved to, or a rejection. */
  datatype ProfileOutcome = Fetched(profile: Option<Value>) | FetchFailed

  class ProfilePage {
    var formData: ProfileForm

    constructor ()
      ensures formData == EmptyProfileForm
    {
      formData := EmptyProfileForm;
    }

    /** The first half of the mount effect: the form from the user in storage. */
    method LoadStored(ls: Storage.LocalStorage, parse: string -> Option<Value>, readFault: bool)
      modifies this
      ensures formData == InitialLoad(old(formData),
                                      if readFault then Null else Storage.ReadItem(ls.entries, Storage.UserKey, parse))
    {
      var stored := Storage.GetItem(ls, Storage.UserKey, parse, readFault);
      formData := InitialLoad(formData, stored);
    }

    /**
     * The second half: the fresh profile merged into the form and into the
     * stored user, which is written back. A rejected request changes
     * nothing; a store that throws on the read gives `null`, one that
     * throws on the write leaves the entries as they were.
     */
    method ApplyProfile(ls: Storage.LocalStorage, outcome: ProfileOutcome, parse: string -> Option<Value>,
                        stringify: Value -> string, readFault: bool, writeFault: bool)
      modifies this, ls
      ensures outcome.FetchFailed? ==> formData == old(formData) && ls.entries == old(ls.entries)
      ensures outcome.Fetched? ==>
        var p := ProfileData(outcome.profile);
        var stored := if readFault then Null else Storage.ReadItem(old(ls.entries), Storage.UserKey, parse);
        && formData == FreshMerge(old(formData), p)
        && ls.entries == (if writeFault then old(ls.entries)
                          else old(ls.entries)[Storage.UserKey := Storage.Serialize(StoredMerge(stored, p), stringify)])
    {
      if outcome.Fetched? {
        var p := ProfileData(outcome.profile);
        formData := FreshMerge(formData, p);
        var stored := Storage.GetItem(ls, Storage.UserKey, parse, readFault);
        var merged := StoredMerge(stored, p);
        var _ := Storage.SetItem(ls, Storage.UserKey, merged, stringify, writeFault);
      }
    }

    /** `handleChange(e)`: the input named `field` takes its text; nothing else changes. */
    method HandleChange(field: Field, value: string)
      modifies this
      ensures formData == WithField(old(formData), field, Str(value))
    {
      formData := WithField(formData, field, Str(value));
    }
  }
}
