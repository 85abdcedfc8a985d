/** The Marketplace tab's Sell form and the list of listings the user has
    submitted. The form state lives in the app shell; it is gathered here in
    one class. */
module Marketplace {
  import opened Wrappers
  import opened Text
  import opened Browser

  /** A user-submitted listing. `id` stands for `Date.now()`. */
  datatype Product = Product(id: int, name: string, price: string, image: ObjectUrl)

  /** The Buy/Sell switch inside the tab. */
  datatype MarketTab = Buy | Sell

  /** The one error the form reports: some detail is missing. */
  datatype SellError = MissingDetails

  /** What every accepted listing looks like: a name and a price that are
      non-empty and already trimmed. */
  predicate WellFormedListing(p: Product) {
    IsTrimmedNonBlank(p.name) && IsTrimmedNonBlank(p.price)
  }

  /** The submit check of `handleSellSubmit`: a blank name, a blank price or
      no file is rejected; otherwise the listing carries the trimmed name and
      price and the preview URL of the chosen file. */
  function ValidateSell(id: int, name: string, price: string, file: Option<FileRef>, url: Option<ObjectUrl>)
    : (r: Result<Product, SellError>)
    requires file.Some? <==> url.Some?
    ensures r.Success? <==> !IsBlank(name) && !IsBlank(price) && file.Some?
    ensures r.Success? ==> && WellFormedListing(r.value)
                           && r.value == Product(id, Trim(name), Trim(price), url.value)
  {
    if IsBlank(name) || IsBlank(price) || file.None? then
      Failure(MissingDetails)
    else
      Success(Product(id, Trim(name), Trim(price), url.value))
  }

  /** The sell form's state and the submitted listings. */
  class SellForm {
    var userProducts: seq<Product>
    var sellName: string
    var sellPrice: string
    var sellImageFile: Option<FileRef>
    var sellImageURL: Option<ObjectUrl>
    var marketplaceTab: MarketTab

    /** A chosen file always comes with its preview URL, and every listing
        was accepted by the submit check. */
    ghost predicate Valid()
      reads this
    {
      && (sellImageFile.Some? <==> sellImageURL.Some?)
      && forall i :: 0 <= i < |userProducts| ==> WellFormedListing(userProducts[i])
    }

    constructor ()
      ensures Valid()
      ensures userProducts == [] && sellName == "" && sellPrice == ""
      ensures sellImageFile == None && sellImageURL == None && marketplaceTab == Buy
    {
      userProducts := [];
      sellName, sellPrice := "", "";
      sellImageFile, sellImageURL := None, None;
      marketplaceTab := Buy;
    }

    /** The product-name field's `onChange`. */
    method SetSellName(text: string)
      requires Valid()
      modifies this`sellName
      ensures Valid() && sellName == text
    {
      sellName := text;
    }

    /** The price field's `onChange`. */
    method SetSellPrice(text: string)
      requires Valid()
      modifies this`sellPrice
      ensures Valid() && sellPrice == text
    {
      sellPrice := text;
    }

    /** The Buy/Sell switch. */
    method SelectMarketTab(tab: MarketTab)
      requires Valid()
      modifies this`marketplaceTab
      ensures Valid() && marketplaceTab == tab
    {
      marketplaceTab := tab;
    }

    /** `handleSellImageChange`: a chosen file is kept with a fresh preview
        URL (`url` stands for `URL.createObjectURL(file)`); clearing the
        picker clears both. */
    method HandleSellImageChange(picked: Option<FileRef>, url: ObjectUrl)
      requires Valid()
      modifies this`sellImageFile, this`sellImageURL
      ensures Valid()
      ensures sellImageFile == picked
      ensures sellImageURL == if picked.Some? then Some(url) else None
    {
      if picked.Some? {
        sellImageFile := picked;
        sellImageURL := Some(url);
      } else {
        sellImageFile := None;
        sellImageURL := None;
      }
    }

    /** `handleSellSubmit`: an incomplete form changes nothing; a complete
        one appends exactly one listing and clears all four fields. */
    method HandleSellSubmit(id: int) returns (accepted: bool)
      requires Valid()
      modifies this`userProducts, this`sellName, this`sellPrice, this`sellImageFile, this`sellImageURL
      ensures Valid()
      ensures accepted <==> !IsBlank(old(sellName)) && !IsBlank(old(sellPrice)) && old(sellImageFile).Some?
      ensures accepted ==>
        && userProducts == old(userProducts) + [Product(id, Trim(old(sellName)), Trim(old(sellPrice)), old(sellImageURL).value)]
        && sellName == "" && sellPrice == "" && sellImageFile == None && sellImageURL == None
      ensures !accepted ==>
        && userProducts == old(userProducts)
        && sellName == old(sellName) && sellPrice == old(sellPrice)
        && sellImageFile == old(sellImageFile) && sellImageURL == old(sellImageURL)
    {
      var checked := ValidateSell(id, sellName, sellPrice, sellImageFile, sellImageURL);
      if checked.Failure? {
        return false;
      }
      var listing := checked.value;
      assert WellFormedListing(listing);
      userProducts := userProducts + [listing];
      sellName := "";
      sellPrice := "";
      sellImageFile := None;
      sellImageURL := None;
      accepted := true;
    }
  }

  /** Name "Carrots", price "$2.00" and no image: rejected, nothing added. */
  method CarrotsWithoutImage(form: SellForm)
    requires form.Valid() && form.sellImageFile == None
    modifies form
    ensures form.Valid() && form.userProducts == old(form.userProducts)
    ensures form.sellName == "Carrots" && form.sellPrice == "$2.00"
  {
    form.SetSellName("Carrots");
    form.SetSellPrice("$2.00");
    var accepted := form.HandleSellSubmit(1);
    assert !accepted;
  }
}
