/** The record the publish handler posts to the automation webhook. */
module Drop {
  import opened AsciiText
  import opened Classifier

  /** The JSON object of the webhook call; `imageUrl` is its "image_url" key. */
  datatype Payload = Payload(
    title: string,
    description: string,
    imageUrl: string,
    price: string,
    category: string)

  /** Longest title the payload carries, in characters. */
  const TitleLimit: nat := 100

  /** Every drop is listed at the same price. */
  const FlatPrice: string := "29.99"

  /** Python's `s[:n]`: at most the first `n` characters of `s`. */
  function Truncate(s: string, n: nat): (r: string)
    ensures r <= s
    ensures |r| == if |s| < n then |s| else n
  {
    if |s| <= n then s else s[..n]
  }

  /** The payload built from the session's idea, image URL and product type. */
  function BuildPayload(idea: string, imageUrl: string, productType: string): (p: Payload)
    ensures p.title <= idea
    ensures |p.title| == if |idea| < TitleLimit then |idea| else TitleLimit
    ensures p.description == idea && p.imageUrl == imageUrl
    ensures p.price == "29.99"
    ensures |p.category| == |productType| && Lower(p.category) == Lower(productType)
    ensures |productType| > 0 ==> !IsLower(p.category[0])
    ensures forall i :: 0 < i < |productType| ==> !IsUpper(p.category[i])
  {
    Payload(Truncate(idea, TitleLimit), idea, imageUrl, FlatPrice, Capitalize(productType))
  }

  /** An idea of at most 100 characters is its own title. */
  lemma ShortIdeaIsTitle(idea: string, imageUrl: string, productType: string)
    requires |idea| <= TitleLimit
    ensures BuildPayload(idea, imageUrl, productType).title == idea
  {
  }

  /** The categories the four classifier results turn into. */
  lemma CategoryOfProductType(t: string)
    requires IsProductType(t)
    ensures t == "mug" ==> Capitalize(t) == "Mug"
    ensures t == "t-shirt" ==> Capitalize(t) == "T-shirt"
    ensures t == "poster" ==> Capitalize(t) == "Poster"
    ensures t == "product" ==> Capitalize(t) == "Product"
  {
    if t == "mug" {
      CapitalizeMug();
    } else if t == "t-shirt" {
      CapitalizeTShirt();
    } else if t == "poster" {
      CapitalizePoster();
    } else {
      CapitalizeProduct();
    }
  }

  lemma CapitalizeMug()
    ensures Capitalize("mug") == "Mug"
  {
    LowerOfLowerCase("ug");
    assert "mug"[1..] == "ug";
  }

  lemma CapitalizeTShirt()
    ensures Capitalize("t-shirt") == "T-shirt"
  {
    LowerOfLowerCase("-shirt");
    assert "t-shirt"[1..] == "-shirt";
  }

  lemma CapitalizePoster()
    ensures Capitalize("poster") == "Poster"
  {
    LowerOfLowerCase("oster");
    assert "poster"[1..] == "oster";
  }

  lemma CapitalizeProduct()
    ensures Capitalize("product") == "Product"
  {
    LowerOfLowerCase("roduct");
    assert "product"[1..] == "roduct";
  }
}
