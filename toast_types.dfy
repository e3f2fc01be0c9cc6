/** The value types shared by the ToastSileo view and its host binding:
    the declared string unions for the toast kind, the screen position and the
    theme, and the seven-field property record the host hands to the view. */
module ToastTypes {

  /** The declared toast kinds. At run time the `type` property is whatever
      string the host's property tree holds, so `Props` keeps it as a string
      and this datatype names the declared values. */
  datatype ToastType = Success | Info | Warning | Error | Show {
    function Name(): string {
      match this
      case Success => "success"
      case Info => "info"
      case Warning => "warning"
      case Error => "error"
      case Show => "show"
    }
  }

  /** The six declared screen anchors; the view passes `position` through unvalidated. */
  datatype Position = TopLeft | TopCenter | TopRight | BottomLeft | BottomCenter | BottomRight {
    function Name(): string {
      match this
      case TopLeft => "top-left"
      case TopCenter => "top-center"
      case TopRight => "top-right"
      case BottomLeft => "bottom-left"
      case BottomCenter => "bottom-center"
      case BottomRight => "bottom-right"
    }
  }

  /** The two declared themes. */
  datatype Theme = Dark | Light {
    function Name(): string {
      match this
      case Dark => "dark"
      case Light => "light"
    }
  }

  ghost predicate DeclaredType(s: string) {
    exists t: ToastType :: t.Name() == s
  }

  ghost predicate DeclaredPosition(s: string) {
    exists p: Position :: p.Name() == s
  }

  ghost predicate DeclaredTheme(s: string) {
    exists t: Theme :: t.Name() == s
  }

  /** One snapshot of the widget's properties, as the view receives them. */
  datatype Props = Props(
    trigger: bool,
    toastType: string,
    title: string,
    description: string,
    position: string,
    duration: int,
    theme: string)
}
