/** The entities the client keeps in its component state (tasks, properties,
    notifications, notification settings) and the string enumerations they
    share with the server. Time is integer milliseconds since the Unix epoch;
    a task's due date "YYYY-MM-DD" is the index of that UTC day. */
module Domain {
  import opened Wrappers

  /** Milliseconds in a day: `24 * 60 * 60 * 1000`. */
  const DayMs: int := 86400000

  datatype Priority = Low | Medium | High

  datatype Status = Pending | InProgress | Completed | Overdue

  datatype NotificationType = TaskReminder | MaintenanceDue | System | Alert

  datatype PropertyType = House | Apartment | Condo | Townhouse | OtherProperty

  datatype RoomType =
    | Bedroom | Bathroom | Kitchen | Living | Garage | Basement | Attic | Office | OtherRoom

  function PriorityName(p: Priority): string {
    match p
    case Low => "low"
    case Medium => "medium"
    case High => "high"
  }

  function StatusName(s: Status): string {
    match s
    case Pending => "pending"
    case InProgress => "in_progress"
    case Completed => "completed"
    case Overdue => "overdue"
  }

  function NotificationTypeName(t: NotificationType): string {
    match t
    case TaskReminder => "task_reminder"
    case MaintenanceDue => "maintenance_due"
    case System => "system"
    case Alert => "alert"
  }

  function PropertyTypeName(t: PropertyType): string {
    match t
    case House => "house"
    case Apartment => "apartment"
    case Condo => "condo"
    case Townhouse => "townhouse"
    case OtherProperty => "other"
  }

  function RoomTypeName(t: RoomType): string {
    match t
    case Bedroom => "bedroom"
    case Bathroom => "bathroom"
    case Kitchen => "kitchen"
    case Living => "living"
    case Garage => "garage"
    case Basement => "basement"
    case Attic => "attic"
    case Office => "office"
    case OtherRoom => "other"
  }

  /** A due date as `new Date(task.dueDate)` reads it: the UTC midnight of an
      ISO calendar day, or an unparsable string (an invalid Date, whose time is
      NaN, so that every comparison with it is false). */
  datatype DueDate = Day(day: int) | Unparsable

  datatype Task = Task(
    id: int,
    title: string,
    description: Option<string>,
    property: string,
    priority: Priority,
    dueDate: DueDate,
    status: Status,
    category: string,
    estimatedTime: Option<int>,
    assignee: Option<string>,
    notes: Option<string>,
    createdAt: int,
    completedAt: Option<int>)

  datatype Property = Property(id: int, name: string, address: string, kind: PropertyType)

  datatype Notification = Notification(
    id: int,
    title: string,
    message: string,
    kind: NotificationType,
    priority: Priority,
    read: bool,
    taskId: Option<int>,
    propertyId: Option<int>,
    createdAt: int,
    scheduledFor: Option<int>,
    actionUrl: Option<string>)

  /** A notification before the store stamps it: `Omit<Notification, 'id' | 'createdAt'>`. */
  datatype Draft = Draft(
    title: string,
    message: string,
    kind: NotificationType,
    priority: Priority,
    read: bool,
    taskId: Option<int>,
    propertyId: Option<int>,
    scheduledFor: Option<int>,
    actionUrl: Option<string>)

  datatype QuietHours = QuietHours(enabled: bool, start: string, end: string)

  datatype NotificationSettings = NotificationSettings(
    emailNotifications: bool,
    pushNotifications: bool,
    smsNotifications: bool,
    reminderAdvance: int,
    quietHours: QuietHours,
    taskReminders: bool,
    maintenanceAlerts: bool,
    systemNotifications: bool)
}
