/** The record every parser produces and the raw fields a detail page yields. */
module Models {
  import opened Wrappers

  /** One scraped article (models/article.go), with the ImgUrl field both parsers assign. */
  datatype Article = Article(
    url: string,
    title: string,
    shortDesc: string,
    author: string,
    date: string,
    sourceUrl: string,
    content: string,
    imgUrl: string)

  /** Go's `models.Article{}`: every field the empty string. */
  const EmptyArticle := Article("", "", "", "", "", "", "", "")

  /** What the site's detail selectors return for a parsed page: the title, author and date
      texts, the image `src` attribute if present, and the inner HTML of the body element. */
  datatype DetailFields = DetailFields(
    title: string,
    author: string,
    date: string,
    img: Option<string>,
    body: string)
}
