/**
 * The shop owner's dashboard (`ShopPageNew`): tabs for the dashboard, analytics, a new
 * listing and the shop settings; the shop's listings; the same shop form as the shop editor,
 * saved without any field check; and a listing form whose submission goes through the
 * listings controller. The shop service is not part of this model: the save request is the
 * method's result and the service's answer is a parameter.
 */
module ShopPageNew {
  import opened Wrappers
  import opened Collections
  import opened Clock
  import opened Entities
  import opened Storage
  import opened Listings
  import opened ShopPage

  /** The dashboard's tabs. */
  datatype Tab = Dashboard | AnalyticsTab | AddListingTab | SettingsTab

  function TabName(t: Tab): string
  {
    match t
    case Dashboard => "dashboard"
    case AnalyticsTab => "analytics"
    case AddListingTab => "add-listing"
    case SettingsTab => "settings"
  }

  /** The tab a URL segment names, if it names one of the four. */
  function TabNamed(name: string): (r: Option<Tab>)
    ensures r.Some? ==> TabName(r.value) == name
    ensures r.None? ==> forall t :: TabName(t) != name
  {
    if name == "dashboard" then Some(Dashboard)
    else if name == "analytics" then Some(AnalyticsTab)
    else if name == "add-listing" then Some(AddListingTab)
    else if name == "settings" then Some(SettingsTab)
    else None
  }

  /** Every tab's name leads back to the tab. */
  lemma TabNamesRoundTrip(t: Tab)
    ensures TabNamed(TabName(t)) == Some(t)
  {
  }

  /**
   * `listings.filter(l => l.shopId === currentShop?.id)`: the listings of the current shop.
   * Without a shop the compared id is `undefined`, so the listings that have no shop id match.
   */
  function ShopListings(listings: seq<Listing>, currentShop: Option<Shop>): (r: seq<Listing>)
    ensures currentShop.Some? ==>
      forall l :: l in r <==> l in listings && l.shopId == Some(currentShop.value.id)
    ensures currentShop.None? ==> forall l :: l in r <==> l in listings && l.shopId.None?
    ensures forall l :: multiset(r)[l] ==
              if l.shopId == (if currentShop.Some? then Some(currentShop.value.id) else None)
              then multiset(listings)[l] else 0
    ensures IsSubsequence(r, listings)
  {
    var shopId := if currentShop.Some? then Some(currentShop.value.id) else None;
    Filter(listings, (l: Listing) => l.shopId == shopId)
  }

  // -----------------------------------------------------------------------------------------
  // The listing form

  /** The listing form; every field is the text of its input, except the type. */
  datatype ListingForm = ListingForm(name: string, description: string, category: string,
                                     price: string, period: string, kind: ListingType,
                                     stock: string)

  const DefaultListingForm := ListingForm("", "", "", "", "unit", Product, "")

  /** The text inputs of the listing form, by their `name` attribute. */
  datatype ListingField = NameField | DescriptionField | CategoryField | PriceField
                        | PeriodField | StockField

  /** `{ ...prev, [name]: value }` on the listing form. */
  function WithListingField(form: ListingForm, field: ListingField, value: string): (r: ListingForm)
    ensures field.NameField? ==> r == form.(name := value)
    ensures field.DescriptionField? ==> r == form.(description := value)
    ensures field.CategoryField? ==> r == form.(category := value)
    ensures field.PriceField? ==> r == form.(price := value)
    ensures field.PeriodField? ==> r == form.(period := value)
    ensures field.StockField? ==> r == form.(stock := value)
  {
    match field
    case NameField => form.(name := value)
    case DescriptionField => form.(description := value)
    case CategoryField => form.(category := value)
    case PriceField => form.(price := value)
    case PeriodField => form.(period := value)
    case StockField => form.(stock := value)
  }

  /** `!name || !description || !category || !price`. */
  predicate ListingFormIncomplete(form: ListingForm)
  {
    form.name == "" || form.description == "" || form.category == "" || form.price == ""
  }

  /** The longest prefix of decimal digits. */
  function LeadingDigits(s: string): (r: string)
    ensures r <= s
    ensures forall i :: 0 <= i < |r| ==> IsDigit(r[i])
    ensures |r| < |s| ==> !IsDigit(s[|r|])
  {
    if s == [] || !IsDigit(s[0]) then [] else [s[0]] + LeadingDigits(s[1..])
  }

  /**
   * `parseInt(s) || 0`: the number its leading digits spell, 0 when it does not start with a
   * digit (NaN). Leading whitespace and signs are not modelled.
   */
  function ParseIntOrZero(s: string): (n: nat)
    ensures s == [] || !IsDigit(s[0]) ==> n == 0
  {
    var digits := LeadingDigits(s);
    if digits == [] then 0 else NumberOf(digits).value
  }

  /** Text made of digits only reads as the number it spells. */
  lemma ParseIntOfDigits(s: string)
    requires s != [] && forall i :: 0 <= i < |s| ==> IsDigit(s[i])
    ensures ParseIntOrZero(s) == NumberOf(s).value
  {
    assert LeadingDigits(s) == s;
  }

  /** Trailing text after the digits is ignored. */
  lemma ParseIntIgnoresTail(digits: string, tail: string)
    requires digits != [] && forall i :: 0 <= i < |digits| ==> IsDigit(digits[i])
    requires tail == [] || !IsDigit(tail[0])
    ensures ParseIntOrZero(digits + tail) == NumberOf(digits).value
  {
    DigitsThenTail(digits, tail);
  }

  lemma {:induction false} DigitsThenTail(digits: string, tail: string)
    requires forall i :: 0 <= i < |digits| ==> IsDigit(digits[i])
    requires tail == [] || !IsDigit(tail[0])
    ensures LeadingDigits(digits + tail) == digits
  {
    if digits == [] {
      assert digits + tail == tail;
    } else {
      assert (digits + tail)[0] == digits[0];
      assert (digits + tail)[1..] == digits[1..] + tail;
      DigitsThenTail(digits[1..], tail);
    }
  }

  /**
   * The listing `handleAddListing` hands to the listings controller: the form's text, the
   * parsed price, the current shop's location and id ("" without a shop), the user's name and
   * e-mail ("" without a user), the form's type, a stock only for products (`parseInt(stock)
   * || 0`), and active. The controller assigns the id, the rating and the reviews.
   */
  function ListingDraft(form: ListingForm, price: real, currentUser: Option<User>,
                        currentShop: Option<Shop>): (l: Listing)
    ensures l.name == form.name && l.description == form.description
    ensures l.category == form.category && l.period == form.period && l.price == price
    ensures l.kind == Some(form.kind)
    ensures form.kind == Product ==> l.stock == Some(ParseIntOrZero(form.stock))
    ensures form.kind == Service ==> l.stock.None?
    ensures l.shopId == Some(if currentShop.Some? then currentShop.value.id else "")
    ensures l.location == (if currentShop.Some? then currentShop.value.location else "")
    ensures l.owner == (if currentUser.Some? then currentUser.value.displayName else "")
    ensures l.ownerContact == (if currentUser.Some? then currentUser.value.email else "")
    ensures l.isActive == Some(true)
  {
    Listing(
      "", form.name, form.description, form.category, price, form.period,
      if currentShop.Some? then currentShop.value.location else "",
      if currentUser.Some? then currentUser.value.displayName else "",
      if currentUser.Some? then currentUser.value.email else "",
      0.0, 0, Some(true), Some(form.kind),
      if form.kind == Product then Some(ParseIntOrZero(form.stock)) else None,
      Some(if currentShop.Some? then currentShop.value.id else ""))
  }

  /**
   * The shop this page creates: owned by the user's `id` ("" without a user), with the user's
   * e-mail and display name ("" without a user), the form, and rating and reviews 0.
   */
  function DashboardShop(currentUser: Option<User>, form: ShopForm): (s: NewShop)
    ensures s.ownerId == Some(if currentUser.Some? then currentUser.value.id else "")
    ensures s.form == form && s.rating == 0.0 && s.reviews == 0
    ensures s.ownerEmail == (if currentUser.Some? then currentUser.value.email else "")
    ensures s.ownerName == (if currentUser.Some? then currentUser.value.displayName else "")
  {
    if currentUser.Some? then
      NewShop(Some(currentUser.value.id), currentUser.value.email, currentUser.value.displayName,
              form, 0.0, 0)
    else NewShop(Some(""), "", "", form, 0.0, 0)
  }

  /**
   * The two pages name the owner of a new shop differently (`uid` here, `id` there), but for
   * a user whose `uid` is its `id`, as the auth context keeps them, they create the same shop.
   */
  lemma OwnersAgree(user: User, form: ShopForm)
    requires user.uid == Some(user.id)
    ensures CreatedShop(user, form) == DashboardShop(Some(user), form)
  {
  }

  /** A user record without `uid` gets a shop without an owner from the shop editor only. */
  lemma OwnersDifferWithoutUid(user: User, form: ShopForm)
    requires user.uid.None?
    ensures CreatedShop(user, form).ownerId.None?
    ensures DashboardShop(Some(user), form).ownerId == Some(user.id)
  {
  }

  // -----------------------------------------------------------------------------------------
  // The page

  const ListingCreatedNotice := Notice("Success!", "Listing created successfully!")

  class ShopDashboard {
    const listingsContext: ListingsContext
    var activeTab: Tab
    var form: ShopForm
    var listingForm: ListingForm
    var isEditing: bool
    var showSuccessModal: bool
    var successMessage: Notice

    constructor (listingsContext: ListingsContext, currentShop: Option<Shop>)
      ensures this.listingsContext == listingsContext
      ensures activeTab == Dashboard && form == EmptyForm && listingForm == DefaultListingForm
      ensures isEditing == currentShop.None? && !showSuccessModal
      ensures successMessage == NoNotice
    {
      this.listingsContext := listingsContext;
      activeTab := Dashboard;
      form := EmptyForm;
      listingForm := DefaultListingForm;
      isEditing := currentShop.None?;
      showSuccessModal := false;
      successMessage := NoNotice;
    }

    /** The effect on the URL: a segment naming one of the four tabs selects it. */
    method SelectTab(tab: Option<string>)
      modifies this
      ensures tab.Some? && TabNamed(tab.value).Some? ==> activeTab == TabNamed(tab.value).value
      ensures tab.None? || TabNamed(tab.value).None? ==> activeTab == old(activeTab)
      ensures activeTab != old(activeTab) ==> tab.Some? && TabName(activeTab) == tab.value
      ensures form == old(form) && listingForm == old(listingForm) && isEditing == old(isEditing)
      ensures showSuccessModal == old(showSuccessModal)
      ensures successMessage == old(successMessage)
    {
      if tab.Some? && TabNamed(tab.value).Some? {
        activeTab := TabNamed(tab.value).value;
      }
    }

    /** The effect on the current shop: a shop fills the form and ends editing. */
    method LoadShop(currentShop: Option<Shop>)
      modifies this
      ensures currentShop.Some? ==> form == FormOf(currentShop.value) && !isEditing
      ensures currentShop.None? ==> form == old(form) && isEditing == old(isEditing)
      ensures activeTab == old(activeTab) && listingForm == old(listingForm)
      ensures showSuccessModal == old(showSuccessModal)
      ensures successMessage == old(successMessage)
    {
      if currentShop.Some? {
        form := FormOf(currentShop.value);
        isEditing := false;
      }
    }

    /** `handleInputChange`: the named shop input takes the typed value. */
    method HandleInputChange(field: FormField, value: string)
      modifies this
      ensures form == WithField(old(form), field, value)
      ensures activeTab == old(activeTab) && listingForm == old(listingForm)
      ensures isEditing == old(isEditing) && showSuccessModal == old(showSuccessModal)
      ensures successMessage == old(successMessage)
    {
      form := WithField(form, field, value);
    }

    /** `handleListingInputChange` on a text input: the named input takes the typed value. */
    method HandleListingInputChange(field: ListingField, value: string)
      modifies this
      ensures listingForm == WithListingField(old(listingForm), field, value)
      ensures activeTab == old(activeTab) && form == old(form)
      ensures isEditing == old(isEditing) && showSuccessModal == old(showSuccessModal)
      ensures successMessage == old(successMessage)
    {
      listingForm := WithListingField(listingForm, field, value);
    }

    /** `handleListingInputChange` on the type selector. */
    method HandleListingTypeChange(kind: ListingType)
      modifies this
      ensures listingForm == old(listingForm).(kind := kind)
      ensures activeTab == old(activeTab) && form == old(form)
      ensures isEditing == old(isEditing) && showSuccessModal == old(showSuccessModal)
      ensures successMessage == old(successMessage)
    {
      listingForm := listingForm.(kind := kind);
    }

    /** `handleHoursChange`: one day's opening or closing time takes the value. */
    method HandleHoursChange(day: string, t: TimeField, value: string)
      modifies this
      ensures form == old(form).(operatingHours := WithHours(old(form).operatingHours, day, t, value))
      ensures activeTab == old(activeTab) && listingForm == old(listingForm)
      ensures isEditing == old(isEditing) && showSuccessModal == old(showSuccessModal)
      ensures successMessage == old(successMessage)
    {
      form := form.(operatingHours := WithHours(form.operatingHours, day, t, value));
    }

    /**
     * `handleSaveShop`: no field is checked. With a current shop it asks the service to
     * update it with the form, otherwise to create the dashboard's new shop; `answer` is the
     * service's reply. A successful reply ends editing and shows the success modal; a failed
     * one is only logged.
     */
    method HandleSaveShop(currentUser: Option<User>, currentShop: Option<Shop>, answer: Outcome)
      returns (request: ShopRequest)
      modifies this
      ensures currentShop.Some? ==> request == UpdateShop(currentShop.value.id, old(form))
      ensures currentShop.None? ==> request == CreateShop(DashboardShop(currentUser, old(form)))
      ensures answer.Pass? ==>
        && !isEditing && showSuccessModal
        && successMessage == Notice("Success!", if currentShop.Some? then "Shop updated successfully"
                                                else "Shop created successfully!")
      ensures answer.Fail? ==>
        isEditing == old(isEditing) && showSuccessModal == old(showSuccessModal) &&
        successMessage == old(successMessage)
      ensures form == old(form) && activeTab == old(activeTab) && listingForm == old(listingForm)
    {
      if currentShop.Some? {
        request := UpdateShop(currentShop.value.id, form);
      } else {
        request := CreateShop(DashboardShop(currentUser, form));
      }
      if answer.Pass? {
        isEditing := false;
        successMessage := Notice("Success!", if currentShop.Some? then "Shop updated successfully"
                                             else "Shop created successfully!");
        showSuccessModal := true;
      }
    }

    /** The state updates after a listing was created: reset form, notice, dashboard tab. */
    method ListingCreated()
      modifies this
      ensures listingForm == DefaultListingForm && activeTab == Dashboard && showSuccessModal
      ensures successMessage == ListingCreatedNotice
      ensures form == old(form) && isEditing == old(isEditing)
    {
      listingForm := DefaultListingForm;
      successMessage := ListingCreatedNotice;
      showSuccessModal := true;
      activeTab := Dashboard;
    }

    /**
     * `handleAddListing`. An empty name, description, category or price is alerted and adds
     * nothing. Otherwise the draft listing goes to the listings controller under the generated
     * id `newId`, with `price` the parsed price text. When the controller throws (no user) the
     * failure is alerted and nothing changes; when it succeeds the listing is stored, the
     * listing form is reset, the success modal is shown and the dashboard tab selected.
     */
    method HandleAddListing(currentUser: Option<User>, currentShop: Option<Shop>, price: real,
                            newId: Id)
      returns (alert: Option<string>)
      modifies this, listingsContext, listingsContext.store
      ensures listingsContext.store.mock ==
        MockAfterWrite(old(listingsContext.store.storage), old(listingsContext.store.mock),
                       listingsContext.store.storage)
      ensures ListingFormIncomplete(old(listingForm)) ==>
        alert == Some("Please fill in all fields") &&
        listingsContext.store.storage == old(listingsContext.store.storage) &&
        listingsContext.listings == old(listingsContext.listings) &&
        listingsContext.userListings == old(listingsContext.userListings)
      ensures !ListingFormIncomplete(old(listingForm)) && currentUser.None? ==>
        alert == Some("Failed to create listing") &&
        listingsContext.store.storage == old(listingsContext.store.storage) &&
        listingsContext.listings == old(listingsContext.listings) &&
        listingsContext.userListings == old(listingsContext.userListings)
      ensures alert.None? <==> !ListingFormIncomplete(old(listingForm)) && currentUser.Some?
      ensures alert.None? ==>
        var added := NewListing(ListingDraft(old(listingForm), price, currentUser, currentShop), newId);
        && listingsContext.store.storage == old(listingsContext.store.storage).(listings :=
             Some(Upsert(old(listingsContext.store.GetListings()), added, ListingId)))
        && listingsContext.listings == [added] + old(listingsContext.listings)
        && listingsContext.userListings == [added] + old(listingsContext.userListings)
        && listingForm == DefaultListingForm && activeTab == Dashboard && showSuccessModal
        && successMessage == ListingCreatedNotice
      ensures alert.Some? ==>
        listingForm == old(listingForm) && activeTab == old(activeTab) &&
        showSuccessModal == old(showSuccessModal) && successMessage == old(successMessage)
      ensures form == old(form) && isEditing == old(isEditing)
      ensures listingsContext.store.initialized == old(listingsContext.store.initialized)
    {
      if listingForm.name == "" || listingForm.description == "" || listingForm.category == "" ||
         listingForm.price == "" {
        return Some("Please fill in all fields");
      }
      var draft := ListingDraft(listingForm, price, currentUser, currentShop);
      var outcome := listingsContext.AddListing(currentUser, draft, newId);
      if outcome.Fail? {
        return Some("Failed to create listing");
      }
      ListingCreated();
      alert := None;
    }
  }
}
