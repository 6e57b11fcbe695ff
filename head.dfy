/** The page head: the document title and the social-sharing metadata a
  * page sets, with defaults for what it leaves out and image and
  * canonical addresses made absolute. */
module Head {
  import opened Outcome
  import Text
  import Env = EnvironmentUtils

  const DefaultTitle: string := "PropostaPro - Crie e assine propostas online"
  const DefaultDescription: string := "PropostaPro é a plataforma para profissionais e empresas criarem, enviarem e assinarem propostas comerciais digitalmente."
  const DefaultImage: string := "/logo.png"
  const TitleSuffix: string := " | PropostaPro"
  const Http: string := "http"

  datatype OgType = Website | Article

  /** The props a page passes; `None` is a prop left out. */
  datatype HeadProps = HeadProps(title: Option<string>, description: Option<string>, ogImage: Option<string>,
                                 ogType: Option<OgType>, canonical: Option<string>)

  /** What the head ends up holding. */
  datatype Meta = Meta(fullTitle: string, description: string, ogImage: string, ogType: OgType, canonical: Option<string>)

  /** `fullTitle`: a title that is given and not empty gets the suffix. */
  function FullTitle(title: Option<string>): (r: string)
    ensures title.Some? && title.value != "" ==> r == title.value + TitleSuffix
    ensures title.None? || title.value == "" ==> r == DefaultTitle
  {
    if title.Some? && title.value != "" then title.value + TitleSuffix else DefaultTitle
  }

  /** An address is kept when it starts with "http", else the production
    * address goes in front of it. Head keeps its own copy of the
    * production address, with the value `EnvironmentUtils` uses. */
  function Absolute(url: string): (r: string)
    ensures Text.StartsWith(url, Http) ==> r == url
    ensures !Text.StartsWith(url, Http) ==> r == Env.ProductionUrl + url
  {
    if Text.StartsWith(url, Http) then url else Env.ProductionUrl + url
  }

  /** Every address `Absolute` returns starts with "http". */
  lemma AbsoluteStartsWithHttp(url: string)
    ensures Text.StartsWith(Absolute(url), Http)
  {
    if !Text.StartsWith(url, Http) {
      assert Env.ProductionUrl == Http + "s://elegant-biz-proposals.vercel.app";
      assert (Env.ProductionUrl + url)[..|Http|] == Env.ProductionUrl[..|Http|];
    }
  }

  /** Making an address absolute twice is making it absolute once. */
  lemma AbsoluteIdempotent(url: string)
    ensures Absolute(Absolute(url)) == Absolute(url)
  {
    AbsoluteStartsWithHttp(url);
  }

  /** The defaults apply only to props left out; an empty title and an
    * empty canonical count as absent, an empty image does not. */
  function Resolve(props: HeadProps): (r: Meta)
    ensures r.fullTitle == FullTitle(props.title)
    ensures props.description.None? ==> r.description == DefaultDescription
    ensures props.description.Some? ==> r.description == props.description.value
    ensures props.ogImage.None? ==> r.ogImage == Env.ProductionUrl + DefaultImage
    ensures props.ogImage.Some? ==> r.ogImage == Absolute(props.ogImage.value)
    ensures props.ogType.None? ==> r.ogType == Website
    ensures props.ogType.Some? ==> r.ogType == props.ogType.value
    ensures r.canonical.Some? <==> props.canonical.Some? && props.canonical.value != ""
    ensures r.canonical.Some? ==> r.canonical.value == Absolute(props.canonical.value)
  {
    var description := if props.description.Some? then props.description.value else DefaultDescription;
    var image := if props.ogImage.Some? then props.ogImage.value else DefaultImage;
    var ogType := if props.ogType.Some? then props.ogType.value else Website;
    var canonical := if props.canonical.Some? && props.canonical.value != "" then Some(Absolute(props.canonical.value)) else None;
    assert DefaultImage[..|Http|][0] != Http[0];
    Meta(FullTitle(props.title), description, Absolute(image), ogType, canonical)
  }

  /** Every address the head publishes is absolute, and resolving a page's
    * resolved addresses again changes nothing. */
  lemma AddressesAbsolute(props: HeadProps)
    ensures var m := Resolve(props);
            Text.StartsWith(m.ogImage, Http)
            && (m.canonical.Some? ==> Text.StartsWith(m.canonical.value, Http))
            && Absolute(m.ogImage) == m.ogImage
  {
    var image := if props.ogImage.Some? then props.ogImage.value else DefaultImage;
    AbsoluteStartsWithHttp(image);
    AbsoluteIdempotent(image);
    if props.canonical.Some? {
      AbsoluteStartsWithHttp(props.canonical.value);
    }
  }
}
