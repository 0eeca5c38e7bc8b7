/**
 * The form state of src/client/components/LinkEditForm.tsx: it starts from
 * the edited link, each input replaces one field, and submitting spreads
 * the form over the link.
 */
module LinkEditForm {
  import opened Wrappers
  import opened LinkModel

  /** The `LinkFormData` state. */
  datatype FormData = FormData(name: string, url: string, icon: string, color: string)

  /** The initial state: the four editable fields of the link. */
  function InitialForm(link: Link): (f: FormData)
    ensures f.name == link.name && f.url == link.url
    ensures f.icon == link.icon && f.color == link.color
  {
    FormData(link.name, link.url, link.icon, link.color)
  }

  /** The name input's `onChange`: `{ ...formData, name: value }`. */
  function SetName(f: FormData, value: string): (g: FormData)
    ensures g.name == value
    ensures g.url == f.url && g.icon == f.icon && g.color == f.color
  {
    f.(name := value)
  }

  /** The url input's `onChange`. */
  function SetUrl(f: FormData, value: string): (g: FormData)
    ensures g.url == value
    ensures g.name == f.name && g.icon == f.icon && g.color == f.color
  {
    f.(url := value)
  }

  /** The icon input's `onChange`. */
  function SetIcon(f: FormData, value: string): (g: FormData)
    ensures g.icon == value
    ensures g.name == f.name && g.url == f.url && g.color == f.color
  {
    f.(icon := value)
  }

  /** The color input's `onChange`. */
  function SetColor(f: FormData, value: string): (g: FormData)
    ensures g.color == value
    ensures g.name == f.name && g.url == f.url && g.icon == f.icon
  {
    f.(color := value)
  }

  /**
   * `handleSubmit`: `{ ...link, ...formData }`. The form's four fields win;
   * the id, clicks, order and creation time of the link are kept.
   */
  function Submit(link: Link, f: FormData): (r: Link)
    ensures InitialForm(r) == f
    ensures r.id == link.id && r.clicks == link.clicks
    ensures r.order == link.order && r.createdAt == link.createdAt
  {
    Link(link.id, f.name, f.url, f.icon, f.color, link.clicks, link.order, link.createdAt)
  }

  /** The payload carrying the four form fields and nothing else. */
  function FormFields(f: FormData): LinkFields {
    NoFields.(name := Some(f.name), url := Some(f.url), icon := Some(f.icon), color := Some(f.color))
  }

  /** The merge on submit is the server's update with the form as payload. */
  lemma SubmitIsOverlay(link: Link, f: FormData)
    ensures Submit(link, f) == Overlay(link, FormFields(f))
  {
  }

  /** Submitting an untouched form gives back the link itself. */
  lemma SubmitUnedited(link: Link)
    ensures Submit(link, InitialForm(link)) == link
  {
  }

  /** Editing one field and submitting changes that field of the link only. */
  lemma SubmitOneEdit(link: Link, value: string)
    ensures Submit(link, SetName(InitialForm(link), value)) == link.(name := value)
    ensures Submit(link, SetUrl(InitialForm(link), value)) == link.(url := value)
    ensures Submit(link, SetIcon(InitialForm(link), value)) == link.(icon := value)
    ensures Submit(link, SetColor(InitialForm(link), value)) == link.(color := value)
  {
  }
}
