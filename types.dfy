/**
  The records of the calorie tracker: the user profile with its plan and
  daily quota counter, one analysed meal, and the single toast
  notification the screen can show.
 */
module Types {
  import opened Js

  datatype Option<T> = None | Some(value: T)

  /** The outcome of a step that may throw. */
  datatype Result<T> = Ok(value: T) | Err(error: Thrown)

  /** The subscription plan. */
  datatype UserPlan = FREE | PRO

  /** Nutrition estimate returned by the inference service. The numbers are
      floating point in the application; nothing here computes with them. */
  datatype NutritionalData = NutritionalData(
    foodName: string,
    calories: real,
    protein: real,
    carbs: real,
    fat: real,
    notes: string)

  /** One history entry. `imageUrl` and `textInput` are the optional fields;
      an absent field is None. */
  datatype MealEntry = MealEntry(
    id: string,
    timestamp: int,
    imageUrl: Option<string>,
    textInput: Option<string>,
    data: NutritionalData)

  /** The locally cached user record. An id of "" stands for a missing or
      empty id, which the restore path treats alike. `lastUsageDate` is a
      YYYY-MM-DD string. */
  datatype UserProfile = UserProfile(
    id: string,
    name: string,
    email: string,
    plan: UserPlan,
    avatarUrl: string,
    dailyUsageCount: int,
    lastUsageDate: string)

  datatype NotificationType = Success | Error | Info

  /** Extra text under a toast: a plain string, the message of a TypeError
      that the engine wrote (its wording is the engine's), or a JSON value
      that the screen renders with JSON.stringify(value, null, 2). */
  datatype Detail = Plain(text: string) | EngineMessage(cause: string) | PrettyJson(value: JsValue)

  /** The one toast the screen shows at a time. */
  datatype Notification = Notification(kind: NotificationType, message: string, details: Option<Detail>)

  /** What a throw carries: an Error object with its message; a TypeError
      the engine raises inside the core (reading a property of null, calling
      a non-function), named by its cause since the engine words the
      message; or a value that is not an Error at all. Errors that come from
      outside (a failed fetch, a JSON syntax error) are ErrorObject inputs. */
  datatype Thrown = ErrorObject(message: string) | EngineTypeError(cause: string) | NotAnError

  /** A throw that reaches the core from outside (fetch, body parsing). */
  type Raised = t: Thrown | !t.EngineTypeError? witness NotAnError

  /** `e instanceof Error ? e.message : fallback`, as toast detail text. */
  function DetailOf(e: Thrown, fallback: string): (d: Detail)
    ensures e.ErrorObject? ==> d == Plain(e.message)
    ensures e.NotAnError? ==> d == Plain(fallback)
    ensures d.EngineMessage? <==> e.EngineTypeError?
  {
    match e
    case ErrorObject(m) => Plain(m)
    case EngineTypeError(c) => EngineMessage(c)
    case NotAnError => Plain(fallback)
  }
}
