/** How the plugin's four AJAX actions reach their handlers. WordPress runs
    the callable an action is hooked to. For a callable `[$object, 'name']`
    PHP looks for a method `name` that the object's class declares, or for
    the class's `__call`; it never looks at a property of that name. */
module Dispatch {
  import opened Common

  /** A callable as `add_action` receives it. */
  datatype Callback =
    | PluginMethod(name: string)              // `[$this, 'name']` on the plugin singleton
    | StaticMethod(cls: string, name: string) // `['Class', 'name']`

  /** What running a hooked callable does. */
  datatype Outcome =
    | RunsEnroll | RunsStartSession | RunsSendMessage | RunsGetProgress
    | RunsGuard(reply: Reply<string>)  // `ajax_forbidden`, with the reply it sends
    | RunsOther(name: string)          // another method the class declares
    | InvalidCallback                  // PHP rejects the callable: no such method

  const PluginClass: string := "CoachPro_LMS"
  const AjaxClass: string := "CoachPro_LMS_Ajax_Ext"

  /** The methods the final class `CoachPro_LMS` declares. It declares no
      `__call`, and none of `ajax_enroll_program`, `ajax_start_session`,
      `ajax_send_message`, `ajax_get_progress`. */
  const PluginMethods: set<string> :=
    {"instance", "__construct", "load_textdomain", "register_post_types", "table_names",
     "admin_menus", "render_admin_app", "print_admin_templates", "enqueue_admin_assets",
     "enqueue_front_assets", "enqueue_shared_assets", "register_rest_endpoints",
     "ajax_forbidden", "uid", "activate", "install_caps", "install_db"}

  /** The reply of the guard hooked to the `nopriv` actions. */
  const GuardReply: Reply<string> := Err(401, "Authentication required.")

  /** Running a callable: the static handlers of the AJAX class, or a method
      the plugin class declares; anything else is an invalid callable. */
  function Run(cb: Callback): Outcome
  {
    var cls := if cb.PluginMethod? then PluginClass else cb.cls;
    if cls == AjaxClass then
      match cb.name
      case "enroll" => RunsEnroll
      case "start_session" => RunsStartSession
      case "send_message" => RunsSendMessage
      case "get_progress" => RunsGetProgress
      case _ => InvalidCallback
    else if cls == PluginClass && cb.name in PluginMethods then
      if cb.name == "ajax_forbidden" then RunsGuard(GuardReply) else RunsOther(cb.name)
    else InvalidCallback
  }

  /** The properties assigned on the plugin singleton after the handler
      class: each holds the static handler it was meant to run. */
  const BoundProperties: map<string, Callback> :=
    map["ajax_enroll_program" := StaticMethod(AjaxClass, "enroll"),
        "ajax_start_session" := StaticMethod(AjaxClass, "start_session"),
        "ajax_send_message" := StaticMethod(AjaxClass, "send_message"),
        "ajax_get_progress" := StaticMethod(AjaxClass, "get_progress")]

  /** The actions a logged-in user's request fires. */
  const LoggedInActions: set<string> :=
    {"wp_ajax_coachpro_enroll_program", "wp_ajax_coachpro_start_session",
     "wp_ajax_coachpro_send_message", "wp_ajax_coachpro_get_progress"}

  /** The actions an anonymous request fires. */
  const AnonymousActions: set<string> :=
    {"wp_ajax_nopriv_coachpro_enroll_program", "wp_ajax_nopriv_coachpro_start_session",
     "wp_ajax_nopriv_coachpro_send_message", "wp_ajax_nopriv_coachpro_get_progress"}

  /** The hooks as the plugin's constructor registers them: the logged-in
      actions name methods of the plugin object after the bound properties. */
  function HookedAsWritten(action: string): Option<Callback>
  {
    match action
    case "wp_ajax_coachpro_enroll_program" => Some(PluginMethod("ajax_enroll_program"))
    case "wp_ajax_coachpro_start_session" => Some(PluginMethod("ajax_start_session"))
    case "wp_ajax_coachpro_send_message" => Some(PluginMethod("ajax_send_message"))
    case "wp_ajax_coachpro_get_progress" => Some(PluginMethod("ajax_get_progress"))
    case "wp_ajax_nopriv_coachpro_enroll_program" => Some(PluginMethod("ajax_forbidden"))
    case "wp_ajax_nopriv_coachpro_start_session" => Some(PluginMethod("ajax_forbidden"))
    case "wp_ajax_nopriv_coachpro_send_message" => Some(PluginMethod("ajax_forbidden"))
    case "wp_ajax_nopriv_coachpro_get_progress" => Some(PluginMethod("ajax_forbidden"))
    case _ => None
  }

  /** The hooks as evidently intended: a logged-in action runs the callable
      its bound property holds; the anonymous actions keep the guard. */
  function Hooked(action: string): Option<Callback>
  {
    match HookedAsWritten(action)
    case Some(PluginMethod(n)) =>
      if n in BoundProperties then Some(BoundProperties[n]) else Some(PluginMethod(n))
    case other => other
  }

  /** As written, every logged-in action names a callable that exists only
      as a property, so PHP rejects it and no handler runs. */
  lemma AsWrittenHandlersUnreachable(action: string)
    requires action in LoggedInActions
    ensures HookedAsWritten(action).Some? && HookedAsWritten(action).value.PluginMethod?
    ensures HookedAsWritten(action).value.name in BoundProperties
    ensures Run(HookedAsWritten(action).value) == InvalidCallback
  {
  }

  /** The concrete case: a logged-in user's enroll request. */
  lemma EnrollRequestAsWrittenFails()
    ensures Run(HookedAsWritten("wp_ajax_coachpro_enroll_program").value) == InvalidCallback
    ensures Hooked("wp_ajax_coachpro_enroll_program") == Some(StaticMethod(AjaxClass, "enroll"))
  {
  }

  /** With the intended binding, each logged-in action runs its own handler. */
  lemma HookedReachesHandlers()
    ensures Run(Hooked("wp_ajax_coachpro_enroll_program").value) == RunsEnroll
    ensures Run(Hooked("wp_ajax_coachpro_start_session").value) == RunsStartSession
    ensures Run(Hooked("wp_ajax_coachpro_send_message").value) == RunsSendMessage
    ensures Run(Hooked("wp_ajax_coachpro_get_progress").value) == RunsGetProgress
  {
  }

  /** Anonymous requests reach the guard, as written and as intended. */
  lemma AnonymousRequestsGuarded(action: string)
    requires action in AnonymousActions
    ensures HookedAsWritten(action).Some?
    ensures Run(HookedAsWritten(action).value) == RunsGuard(Err(401, "Authentication required."))
    ensures Hooked(action) == HookedAsWritten(action)
  {
  }
}
