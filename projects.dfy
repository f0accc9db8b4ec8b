/** The project record shared by the gallery and the project card, and the
    JavaScript truthiness tests the components apply to its fields. */
module Projects {
  import opened Wrappers

  /** A gallery entry. `imageUrl`, `images`, `date` and `link` are optional
      properties. `github` is typed as a required string, but a project may
      leave it out (it is then `undefined`); that is modelled as the empty
      string, which every truthiness test treats the same way. */
  datatype Project = Project(
    id: string,
    title: string,
    description: string,
    details: string,
    github: string,
    imageUrl: Option<string>,
    images: Option<seq<string>>,
    date: Option<string>,
    link: Option<string>)

  /** What an `<img src=...>` ends up showing: a given image path, the bundled
      "under construction" picture, or `undefined` (an array read past its end). */
  datatype ImageSrc = Asset(path: string) | DefaultImage | Undefined

  /** JavaScript truthiness of an optional string: present and not empty. */
  predicate Truthy(s: Option<string>) {
    s.Some? && s.value != ""
  }

  /** The image list of a project; a missing list reads as empty, which is how
      every guard `p.images && p.images.length > 0` treats it. */
  function ImageList(p: Project): seq<string> {
    p.images.GetOr([])
  }
}
