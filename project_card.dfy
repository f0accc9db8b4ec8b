/** The stand-alone project card (src/components/ProjectCard.tsx): which picture
    it shows and which of the date, external-link and GitHub items it renders. */
module ProjectCard {
  import opened Wrappers
  import opened Projects
  import ProjectsSection

  /** The card picture: a non-empty `imageUrl` wins; otherwise the first entry
      of a non-empty `images`; otherwise the default picture. The list is read
      only at index 0 and only when it has an entry, so the card never shows
      `undefined`. */
  function CardImage(p: Project): (r: ImageSrc)
    ensures r != Undefined
    ensures Truthy(p.imageUrl) ==> r == Asset(p.imageUrl.value)
    ensures !Truthy(p.imageUrl) && ImageList(p) != [] ==> r == Asset(ImageList(p)[0])
    ensures !Truthy(p.imageUrl) && ImageList(p) == [] ==> r == DefaultImage
  {
    if p.imageUrl.Some? && p.imageUrl.value != "" then Asset(p.imageUrl.value)
    else if p.images.Some? && |p.images.value| > 0 then Asset(p.images.value[0])
    else DefaultImage
  }

  /** Without an `imageUrl` the card shows the same picture as the gallery
      thumbnail, and the default picture only when neither source has one. */
  lemma CardFallsBackToThumbnail(p: Project)
    ensures !Truthy(p.imageUrl) ==> CardImage(p) == ProjectsSection.Thumbnail(p)
    ensures CardImage(p) == DefaultImage <==> !Truthy(p.imageUrl) && ImageList(p) == []
  {
  }

  /** The footer of a card: each item is rendered, with its value, exactly when
      the corresponding field is truthy. */
  datatype Footer = Footer(date: Option<string>, link: Option<string>, github: Option<string>)

  function CardFooter(p: Project): (r: Footer)
    ensures r.date.Some? <==> Truthy(p.date)
    ensures r.link.Some? <==> Truthy(p.link)
    ensures r.github.Some? <==> p.github != ""
    ensures r.date.Some? ==> Some(r.date.value) == p.date
    ensures r.link.Some? ==> Some(r.link.value) == p.link
    ensures r.github.Some? ==> r.github.value == p.github
  {
    Footer(
      if Truthy(p.date) then p.date else None,
      if Truthy(p.link) then p.link else None,
      if p.github != "" then Some(p.github) else None)
  }
}
