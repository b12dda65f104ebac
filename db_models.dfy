/** The server's record validators and the stored-preferences scanner
    (pkg/database/models.go). The validators are lookups in constant
    `map[string]bool` tables, which answer false for a missing key; each
    accepts exactly the names of one client-side enumeration. JSON decoding is
    an oracle that yields the fields present in the document. */
module DbModels {
  import opened Wrappers
  import opened Domain

  /** Go's `m[key]` on a `map[string]bool`: the zero value for a missing key. */
  function Lookup(m: map<string, bool>, key: string): bool {
    key in m && m[key]
  }

  const ValidStatuses: map<string, bool> :=
    map["pending" := true, "in_progress" := true, "completed" := true, "overdue" := true]
  const ValidPriorities: map<string, bool> :=
    map["low" := true, "medium" := true, "high" := true]
  const ValidPropertyTypes: map<string, bool> :=
    map["house" := true, "apartment" := true, "condo" := true, "townhouse" := true, "other" := true]
  const ValidRoomTypes: map<string, bool> :=
    map["bedroom" := true, "bathroom" := true, "kitchen" := true, "living" := true, "garage" := true,
        "basement" := true, "attic" := true, "office" := true, "other" := true]
  const ValidNotificationTypes: map<string, bool> :=
    map["task_reminder" := true, "maintenance_due" := true, "system" := true, "alert" := true]

  predicate ValidateTaskStatus(status: string) { Lookup(ValidStatuses, status) }
  predicate ValidateTaskPriority(priority: string) { Lookup(ValidPriorities, priority) }
  predicate ValidatePropertyType(propertyType: string) { Lookup(ValidPropertyTypes, propertyType) }
  predicate ValidateRoomType(roomType: string) { Lookup(ValidRoomTypes, roomType) }
  predicate ValidateNotificationType(notificationType: string) { Lookup(ValidNotificationTypes, notificationType) }

  /** The server accepts exactly the status names the client uses. */
  lemma StatusValidation(s: string)
    ensures ValidateTaskStatus(s) <==> exists st :: StatusName(st) == s
  {
    if ValidateTaskStatus(s) {
      var st := if s == "pending" then Pending else if s == "in_progress" then InProgress
        else if s == "completed" then Completed else Overdue;
      assert StatusName(st) == s;
    }
  }

  /** The server accepts exactly the priority names the client uses. */
  lemma PriorityValidation(s: string)
    ensures ValidateTaskPriority(s) <==> exists p :: PriorityName(p) == s
  {
    if ValidateTaskPriority(s) {
      var p := if s == "low" then Low else if s == "medium" then Medium else High;
      assert PriorityName(p) == s;
    }
  }

  /** Five property types are accepted, the client's five. */
  lemma PropertyTypeValidation(s: string)
    ensures ValidatePropertyType(s) <==> exists t :: PropertyTypeName(t) == s
    ensures |ValidPropertyTypes.Keys| == 5
  {
    if ValidatePropertyType(s) {
      var t := if s == "house" then House else if s == "apartment" then Apartment
        else if s == "condo" then Condo else if s == "townhouse" then Townhouse else OtherProperty;
      assert PropertyTypeName(t) == s;
    }
  }

  /** Nine room types are accepted, the client's nine. */
  lemma RoomTypeValidation(s: string)
    ensures ValidateRoomType(s) <==> exists t :: RoomTypeName(t) == s
    ensures |ValidRoomTypes.Keys| == 9
  {
    if ValidateRoomType(s) {
      var t := if s == "bedroom" then Bedroom else if s == "bathroom" then Bathroom
        else if s == "kitchen" then Kitchen else if s == "living" then Living
        else if s == "garage" then Garage else if s == "basement" then Basement
        else if s == "attic" then Attic else if s == "office" then Office else OtherRoom;
      assert RoomTypeName(t) == s;
    }
  }

  /** The server accepts exactly the notification types the client uses. */
  lemma NotificationTypeValidation(s: string)
    ensures ValidateNotificationType(s) <==> exists t :: NotificationTypeName(t) == s
  {
    if ValidateNotificationType(s) {
      var t := if s == "task_reminder" then TaskReminder else if s == "maintenance_due" then MaintenanceDue
        else if s == "system" then System else Alert;
      assert NotificationTypeName(t) == s;
    }
  }

  // UserPreferences

  datatype Preferences = Preferences(
    emailNotifications: bool,
    pushNotifications: bool,
    smsNotifications: bool,
    theme: string,
    dateFormat: string,
    timeFormat: string)

  /** What a JSON document sets: `json.Unmarshal` into a struct assigns the
      fields the document names and leaves the others as they were. */
  datatype PreferencesDocument = PreferencesDocument(
    emailNotifications: Option<bool>,
    pushNotifications: Option<bool>,
    smsNotifications: Option<bool>,
    theme: Option<string>,
    dateFormat: Option<string>,
    timeFormat: Option<string>)

  function Overlay(p: Preferences, d: PreferencesDocument): Preferences
  {
    Preferences(
      d.emailNotifications.GetOr(p.emailNotifications),
      d.pushNotifications.GetOr(p.pushNotifications),
      d.smsNotifications.GetOr(p.smsNotifications),
      d.theme.GetOr(p.theme),
      d.dateFormat.GetOr(p.dateFormat),
      d.timeFormat.GetOr(p.timeFormat))
  }

  /** `Value`: the document `json.Marshal` writes names every field. */
  function Document(p: Preferences): (d: PreferencesDocument)
  {
    PreferencesDocument(Some(p.emailNotifications), Some(p.pushNotifications), Some(p.smsNotifications),
                        Some(p.theme), Some(p.dateFormat), Some(p.timeFormat))
  }

  /** Storing preferences and scanning them back restores them, whatever the
      receiver held before; a document naming no field changes nothing, and
      scanning the same document twice is scanning it once. */
  lemma StoreThenScan(p: Preferences, receiver: Preferences, d: PreferencesDocument)
    ensures Overlay(receiver, Document(p)) == p
    ensures Overlay(receiver, PreferencesDocument(None, None, None, None, None, None)) == receiver
    ensures Overlay(Overlay(receiver, d), d) == Overlay(receiver, d)
  {
  }

  /** A value handed to `Scan` by the SQL driver. */
  datatype ScanValue = Nil | Bytes(text: string) | Text(text: string) | OtherType(typeName: string)

  class UserPreferences {
    var emailNotifications: bool
    var pushNotifications: bool
    var smsNotifications: bool
    var theme: string
    var dateFormat: string
    var timeFormat: string

    constructor (p: Preferences)
      ensures Current() == p
    {
      emailNotifications, pushNotifications, smsNotifications := p.emailNotifications, p.pushNotifications, p.smsNotifications;
      theme, dateFormat, timeFormat := p.theme, p.dateFormat, p.timeFormat;
    }

    function Current(): Preferences
      reads this
    {
      Preferences(emailNotifications, pushNotifications, smsNotifications, theme, dateFormat, timeFormat)
    }

    /** `Scan`: NULL leaves the receiver alone and succeeds; bytes and strings
        are decoded alike (a document that does not decode changes nothing and
        its error is returned); any other type is an error. */
    method Scan(value: ScanValue, decode: string -> Result<PreferencesDocument, string>) returns (err: Option<string>)
      modifies this
      ensures value.Nil? ==> err.None? && Current() == old(Current())
      ensures (value.Bytes? || value.Text?) ==>
        if decode(value.text).Ok? then err.None? && Current() == Overlay(old(Current()), decode(value.text).value)
        else err == Some(decode(value.text).error) && Current() == old(Current())
      ensures value.OtherType? ==>
        err == Some("cannot scan " + value.typeName + " into UserPreferences") && Current() == old(Current())
    {
      if value.Nil? {
        return None;
      }
      match value
      case Bytes(text) =>
        err := Unmarshal(text, decode);
      case Text(text) =>
        err := Unmarshal(text, decode);
      case OtherType(typeName) =>
        err := Some("cannot scan " + typeName + " into UserPreferences");
    }

    /** `json.Unmarshal(data, p)`. */
    method Unmarshal(data: string, decode: string -> Result<PreferencesDocument, string>) returns (err: Option<string>)
      modifies this
      ensures decode(data).Ok? ==> err.None? && Current() == Overlay(old(Current()), decode(data).value)
      ensures decode(data).Err? ==> err == Some(decode(data).error) && Current() == old(Current())
    {
      match decode(data)
      case Err(e) =>
        err := Some(e);
      case Ok(d) =>
        var p := Overlay(Current(), d);
        emailNotifications, pushNotifications, smsNotifications := p.emailNotifications, p.pushNotifications, p.smsNotifications;
        theme, dateFormat, timeFormat := p.theme, p.dateFormat, p.timeFormat;
        err := None;
    }
  }
}
