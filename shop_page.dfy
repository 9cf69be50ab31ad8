/**
 * The shop editor (`ShopPage`): a form holding the shop's profile and weekly opening hours,
 * filled from the current shop when there is one, edited field by field, and submitted as a
 * create or an update request to the shop service. The shop service is not part of this
 * model: the request is the method's result and the service's answer is a parameter.
 */
module ShopPage {
  import opened Wrappers
  import opened Entities

  /** The shop form: the editable properties of a shop. */
  datatype ShopForm = ShopForm(
    shopName: string, shopDescription: string, category: string, location: string,
    phone: string, website: string, instagram: string, operatingHours: Hours)

  /** The text inputs of the form, by their `name` attribute. */
  datatype FormField = ShopName | ShopDescription | Category | Location | Phone | Website | Instagram

  /** The two times of a day's opening hours. */
  datatype TimeField = Open | Close

  function TimeKey(t: TimeField): string
  {
    match t
    case Open => "open"
    case Close => "close"
  }

  /** One day's hours as an object `{ open, close }`. */
  function DayHours(open: string, close: string): map<string, string>
  {
    map["open" := open, "close" := close]
  }

  /** The default week: 09:00 to 17:00 on weekdays, 10:00 to 14:00 at the weekend. */
  const DefaultHours: Hours := map[
    "monday" := DayHours("09:00", "17:00"), "tuesday" := DayHours("09:00", "17:00"),
    "wednesday" := DayHours("09:00", "17:00"), "thursday" := DayHours("09:00", "17:00"),
    "friday" := DayHours("09:00", "17:00"), "saturday" := DayHours("10:00", "14:00"),
    "sunday" := DayHours("10:00", "14:00")]

  /** The form of a page that has no shop yet. */
  const EmptyForm := ShopForm("", "", "", "", "", "", "", DefaultHours)

  /** The form filled from a shop: absent contact fields become "", absent hours the defaults. */
  function FormOf(shop: Shop): (f: ShopForm)
    ensures f.shopName == shop.shopName && f.shopDescription == shop.shopDescription
    ensures f.category == shop.category && f.location == shop.location
    ensures f.phone == shop.phone.GetOr("") && f.website == shop.website.GetOr("")
    ensures f.instagram == shop.instagram.GetOr("")
    ensures shop.operatingHours.Some? ==> f.operatingHours == shop.operatingHours.value
    ensures shop.operatingHours.None? ==> f.operatingHours == DefaultHours
  {
    ShopForm(shop.shopName, shop.shopDescription, shop.category, shop.location,
             shop.phone.GetOr(""), shop.website.GetOr(""), shop.instagram.GetOr(""),
             shop.operatingHours.GetOr(DefaultHours))
  }

  /** The value of one text input. */
  function FieldValue(form: ShopForm, field: FormField): string
  {
    match field
    case ShopName => form.shopName
    case ShopDescription => form.shopDescription
    case Category => form.category
    case Location => form.location
    case Phone => form.phone
    case Website => form.website
    case Instagram => form.instagram
  }

  /** `{ ...prev, [name]: value }`: the named input takes the value and nothing else changes. */
  function WithField(form: ShopForm, field: FormField, value: string): (r: ShopForm)
    ensures FieldValue(r, field) == value
    ensures forall g :: g != field ==> FieldValue(r, g) == FieldValue(form, g)
    ensures r.operatingHours == form.operatingHours
  {
    match field
    case ShopName => form.(shopName := value)
    case ShopDescription => form.(shopDescription := value)
    case Category => form.(category := value)
    case Location => form.(location := value)
    case Phone => form.(phone := value)
    case Website => form.(website := value)
    case Instagram => form.(instagram := value)
  }

  /**
   * `{ ...hours, [day]: { ...hours[day], [type]: value } }`: the day's time takes the value; the
   * day's other time and every other day stay as they were. A day that had no entry gets one
   * holding only this time, since spreading `undefined` adds nothing.
   */
  function WithHours(hours: Hours, day: string, t: TimeField, value: string): (r: Hours)
    ensures day in r && TimeKey(t) in r[day] && r[day][TimeKey(t)] == value
    ensures r[day].Keys == (if day in hours then hours[day].Keys else {}) + {TimeKey(t)}
    ensures forall k :: k in r[day] && k != TimeKey(t) ==> day in hours && r[day][k] == hours[day][k]
    ensures r.Keys == hours.Keys + {day}
    ensures forall d :: d in hours && d != day ==> r[d] == hours[d]
  {
    var before := if day in hours then hours[day] else map[];
    hours[day := before[TimeKey(t) := value]]
  }

  /** Setting the same time twice keeps only the second value. */
  lemma HoursLastWriteWins(hours: Hours, day: string, t: TimeField, v1: string, v2: string)
    ensures WithHours(WithHours(hours, day, t, v1), day, t, v2) == WithHours(hours, day, t, v2)
  {
    var once := WithHours(hours, day, t, v1);
    assert once[day][TimeKey(t) := v2] == (if day in hours then hours[day] else map[])[TimeKey(t) := v2];
  }

  /** Setting a time to the value it has already changes nothing. */
  lemma HoursUnchangedBySameValue(hours: Hours, day: string, t: TimeField)
    requires day in hours && TimeKey(t) in hours[day]
    ensures WithHours(hours, day, t, hours[day][TimeKey(t)]) == hours
  {
    var r := WithHours(hours, day, t, hours[day][TimeKey(t)]);
    assert r[day] == hours[day];
  }

  /** The data of a new shop: owner fields, the form, and no rating or reviews yet. */
  datatype NewShop = NewShop(ownerId: Option<Id>, ownerEmail: string, ownerName: string,
                             form: ShopForm, rating: real, reviews: int)

  /** A call to the shop service. */
  datatype ShopRequest = CreateShop(data: NewShop) | UpdateShop(id: Id, form: ShopForm)

  /** The success modal's text, `{ title, message }`. */
  datatype Notice = Notice(title: string, message: string)

  const NoNotice := Notice("", "")

  const ShopUpdatedNotice :=
    Notice("Shop Updated!", "Your shop information has been updated successfully.")

  const ShopCreatedNotice := Notice("Shop Created!", "Welcome to HomeBase! Your shop is now live.")

  /** What a submission led to: an alert before any call, or a call and its answer. */
  datatype Submission = Refused(alert: string) | Sent(request: ShopRequest, answer: Outcome)

  /** `formData.shopName && formData.category && formData.location`. */
  predicate RequiredFilled(form: ShopForm)
  {
    form.shopName != "" && form.category != "" && form.location != ""
  }

  /**
   * The shop this page creates for a user: owned by the user's `uid` (absent when the user
   * record has none), with the user's e-mail and display name, the form, and rating and
   * reviews 0.
   */
  function CreatedShop(user: User, form: ShopForm): (s: NewShop)
    ensures s.ownerId == user.uid && s.form == form && s.rating == 0.0 && s.reviews == 0
    ensures s.ownerEmail == user.email && s.ownerName == user.displayName
  {
    NewShop(user.uid, user.email, user.displayName, form, 0.0, 0)
  }

  class ShopEditor {
    var form: ShopForm
    var isEditing: bool
    var showSuccessModal: bool
    var successMessage: Notice

    /** A page without a shop starts in editing mode with the empty form. */
    constructor (currentShop: Option<Shop>)
      ensures form == EmptyForm && isEditing == currentShop.None?
      ensures !showSuccessModal && successMessage == NoNotice
    {
      form := EmptyForm;
      isEditing := currentShop.None?;
      showSuccessModal := false;
      successMessage := NoNotice;
    }

    /** The effect on the current shop: a shop fills the form and ends editing. */
    method LoadShop(currentShop: Option<Shop>)
      modifies this
      ensures currentShop.Some? ==> form == FormOf(currentShop.value) && !isEditing
      ensures currentShop.None? ==> form == old(form) && isEditing == old(isEditing)
      ensures showSuccessModal == old(showSuccessModal) && successMessage == old(successMessage)
    {
      if currentShop.Some? {
        form := FormOf(currentShop.value);
        isEditing := false;
      }
    }

    /** `handleInputChange`: the named input takes the typed value. */
    method HandleInputChange(field: FormField, value: string)
      modifies this
      ensures form == WithField(old(form), field, value)
      ensures isEditing == old(isEditing) && showSuccessModal == old(showSuccessModal)
      ensures successMessage == old(successMessage)
    {
      form := WithField(form, field, value);
    }

    /** `handleHoursChange`: one day's opening or closing time takes the value. */
    method HandleHoursChange(day: string, t: TimeField, value: string)
      modifies this
      ensures form == old(form).(operatingHours := WithHours(old(form).operatingHours, day, t, value))
      ensures isEditing == old(isEditing) && showSuccessModal == old(showSuccessModal)
      ensures successMessage == old(successMessage)
    {
      form := form.(operatingHours := WithHours(form.operatingHours, day, t, value));
    }

    /**
     * `handleSubmit`. Without a user, or with an empty shop name, category or location, it
     * alerts and calls nothing; the description and the contact fields are not checked.
     * Otherwise it asks the service to update the current shop with the form, or to create a
     * shop owned by the user; `answer` is the service's reply. A successful reply ends editing
     * and shows the success modal; a failed one is alerted and changes nothing.
     */
    method HandleSubmit(currentUser: Option<User>, currentShop: Option<Shop>, answer: Outcome)
      returns (result: Submission)
      modifies this
      ensures currentUser.None? ==> result == Refused("You must be logged in")
      ensures currentUser.Some? && !RequiredFilled(old(form)) ==>
        result == Refused("Please fill in all required fields")
      ensures currentUser.Some? && RequiredFilled(old(form)) ==>
        && result.Sent? && result.answer == answer
        && (currentShop.Some? ==> result.request == UpdateShop(currentShop.value.id, old(form)))
        && (currentShop.None? ==> result.request == CreateShop(CreatedShop(currentUser.value, old(form))))
      ensures form == old(form)
      ensures result.Sent? && answer.Pass? ==>
        && !isEditing && showSuccessModal
        && successMessage == (if currentShop.Some? then ShopUpdatedNotice else ShopCreatedNotice)
      ensures !(result.Sent? && answer.Pass?) ==>
        isEditing == old(isEditing) && showSuccessModal == old(showSuccessModal) &&
        successMessage == old(successMessage)
    {
      if currentUser.None? {
        return Refused("You must be logged in");
      }
      if form.shopName == "" || form.category == "" || form.location == "" {
        return Refused("Please fill in all required fields");
      }
      var request;
      if currentShop.Some? {
        request := UpdateShop(currentShop.value.id, form);
      } else {
        var user := currentUser.value;
        request := CreateShop(NewShop(user.uid, user.email, user.displayName, form, 0.0, 0));
      }
      result := Sent(request, answer);
      if answer.Pass? {
        successMessage := if currentShop.Some? then ShopUpdatedNotice else ShopCreatedNotice;
        showSuccessModal := true;
        isEditing := false;
      }
    }

    /** The two-second timer after a successful submission closes the success modal. */
    method SuccessTimeout()
      modifies this
      ensures !showSuccessModal
      ensures form == old(form) && isEditing == old(isEditing) && successMessage == old(successMessage)
    {
      showSuccessModal := false;
    }
  }
}
