/** What the build loops read from the Confluence REST API, as plain data:
    pages, the page-view URL built from a page id, and the metadata record
    that accompanies every chunk text. Fetching is not modelled; pages are
    given. */
module Confluence {

  datatype Option<+T> = None | Some(value: T)

  /** A page object of the content API. `body` is `None` when any key on
      the path `page["body"]["storage"]["value"]` is missing. */
  datatype Page = Page(id: string, title: string, body: Option<string>)

  /** `CONFLUENCE_BASE_URL` of alt.py, run.py and create_db.py. */
  const BaseUrl: string := "https://yourcompany.atlassian.net/wiki"

  /** `f"{base}/pages/viewpage.action?pageId={page_id}"` */
  function PageUrl(base: string, pageId: string): string {
    base + "/pages/viewpage.action?pageId=" + pageId
  }

  /** The URL depends on the page id alone, and different ids give
      different URLs. */
  lemma PageUrlDeterminesPage(base: string, a: string, b: string)
    ensures PageUrl(base, a) == PageUrl(base, b) <==> a == b
  {
    var prefix := base + "/pages/viewpage.action?pageId=";
    if PageUrl(base, a) == PageUrl(base, b) {
      assert a == PageUrl(base, a)[|prefix|..];
      assert b == PageUrl(base, b)[|prefix|..];
    }
  }

  /** Every page carries a storage body, so strict indexing does not raise. */
  predicate AllBodies(pages: seq<Page>) {
    forall p :: 0 <= p < |pages| ==> pages[p].body.Some?
  }

  /** `page.get("body", {}).get("storage", {}).get("value", "")` */
  function BodyOrEmpty(page: Page): string {
    match page.body
    case Some(html) => html
    case None => ""
  }

  /** A metadata entry of create_db.py and indexer.py. */
  datatype Meta = Meta(title: string, chunkId: nat, url: string)
}
