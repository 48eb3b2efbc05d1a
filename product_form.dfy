/**
 * The admin product form: field editing, the ordered validation chain, tag
 * parsing, and the multipart payload handed to the save callback.
 *
 * `Number(...)` and `new URL(...)` are engine facilities; they appear as the
 * parameters `number` (`None` for `NaN`) and `isUrl`.
 */
module ProductForm {
  import opened Wrappers
  import Seqs
  import Text
  import opened Params

  datatype Fields = Fields(
    name: string, description: string, price: string, originalPrice: string,
    category: string, stock: string, discount: string, tags: string)

  const EmptyFields := Fields("", "", "", "", "", "", "", "")

  datatype FieldName = Name | Description | Price | OriginalPrice | Category | Stock | Discount | TagList

  function Read(f: Fields, n: FieldName): string {
    match n
    case Name => f.name
    case Description => f.description
    case Price => f.price
    case OriginalPrice => f.originalPrice
    case Category => f.category
    case Stock => f.stock
    case Discount => f.discount
    case TagList => f.tags
  }

  /** `{ ...prev, [name]: value }`. */
  function With(f: Fields, n: FieldName, value: string): (r: Fields)
    ensures Read(r, n) == value
    ensures forall m :: m != n ==> Read(r, m) == Read(f, m)
  {
    match n
    case Name => f.(name := value)
    case Description => f.(description := value)
    case Price => f.(price := value)
    case OriginalPrice => f.(originalPrice := value)
    case Category => f.(category := value)
    case Stock => f.(stock := value)
    case Discount => f.(discount := value)
    case TagList => f.(tags := value)
  }

  // ---------------------------------------------------------------------
  // validateForm
  // ---------------------------------------------------------------------

  const NameMessage := "Product name is required"
  const DescriptionMessage := "Product description is required"
  const PriceMessage := "Valid price is required"
  const CategoryMessage := "Category is required"
  const StockMessage := "Valid stock quantity is required"
  const DiscountMessage := "Discount must be between 0 and 100"
  const ImageMessage := "Product image URL is required"
  const UrlMessage := "Invalid image URL format"

  predicate NameGiven(f: Fields) { Text.Trim(f.name) != "" }
  predicate DescriptionGiven(f: Fields) { Text.Trim(f.description) != "" }
  predicate CategoryGiven(f: Fields) { Text.Trim(f.category) != "" }

  predicate PriceValid(f: Fields, number: string -> Option<real>) {
    f.price != "" && number(f.price).Some? && number(f.price).value > 0.0
  }

  predicate StockValid(f: Fields, number: string -> Option<real>) {
    f.stock != "" && number(f.stock).Some? && number(f.stock).value >= 0.0
  }

  /** An empty discount is allowed; a given one must be a number in [0, 100]. */
  predicate DiscountValid(f: Fields, number: string -> Option<real>) {
    f.discount == "" || (number(f.discount).Some? && 0.0 <= number(f.discount).value <= 100.0)
  }

  predicate Acceptable(f: Fields, imageUrl: string, number: string -> Option<real>, isUrl: string -> bool) {
    NameGiven(f) && DescriptionGiven(f) && PriceValid(f, number) && CategoryGiven(f) &&
    StockValid(f, number) && DiscountValid(f, number) && imageUrl != "" && isUrl(imageUrl)
  }

  /** `validateForm()`: the message of the first failing check, or "" when all pass. */
  function FormError(f: Fields, imageUrl: string, number: string -> Option<real>, isUrl: string -> bool): (r: string)
    ensures r == "" <==> Acceptable(f, imageUrl, number, isUrl)
    ensures r == NameMessage <==> !NameGiven(f)
    ensures r == DescriptionMessage <==> NameGiven(f) && !DescriptionGiven(f)
    ensures r == PriceMessage <==> NameGiven(f) && DescriptionGiven(f) && !PriceValid(f, number)
    ensures r == CategoryMessage <==>
      NameGiven(f) && DescriptionGiven(f) && PriceValid(f, number) && !CategoryGiven(f)
    ensures r == StockMessage <==>
      NameGiven(f) && DescriptionGiven(f) && PriceValid(f, number) && CategoryGiven(f) &&
      !StockValid(f, number)
    ensures r == DiscountMessage <==>
      NameGiven(f) && DescriptionGiven(f) && PriceValid(f, number) && CategoryGiven(f) &&
      StockValid(f, number) && !DiscountValid(f, number)
    ensures r == ImageMessage <==>
      NameGiven(f) && DescriptionGiven(f) && PriceValid(f, number) && CategoryGiven(f) &&
      StockValid(f, number) && DiscountValid(f, number) && imageUrl == ""
    ensures r == UrlMessage <==>
      NameGiven(f) && DescriptionGiven(f) && PriceValid(f, number) && CategoryGiven(f) &&
      StockValid(f, number) && DiscountValid(f, number) && imageUrl != "" && !isUrl(imageUrl)
  {
    if !NameGiven(f) then NameMessage
    else if !DescriptionGiven(f) then DescriptionMessage
    else if !PriceValid(f, number) then PriceMessage
    else if !CategoryGiven(f) then CategoryMessage
    else if !StockValid(f, number) then StockMessage
    else if !DiscountValid(f, number) then DiscountMessage
    else if imageUrl == "" then ImageMessage
    else if !isUrl(imageUrl) then UrlMessage
    else ""
  }

  /** A name of spaces only is reported before anything else, however bad the rest is. */
  lemma BlankNameFirst(f: Fields, imageUrl: string, number: string -> Option<real>, isUrl: string -> bool)
    requires forall i :: 0 <= i < |f.name| ==> Text.IsSpace(f.name[i])
    ensures FormError(f, imageUrl, number, isUrl) == NameMessage
  {
  }

  // ---------------------------------------------------------------------
  // Tags
  // ---------------------------------------------------------------------

  function TrimAll(parts: seq<string>): seq<string> {
    seq(|parts|, i requires 0 <= i < |parts| => Text.Trim(parts[i]))
  }

  predicate IsTag(t: string) {
    t != "" && !Text.IsSpace(t[0]) && !Text.IsSpace(t[|t| - 1]) && ',' !in t
  }

  /** `tags.split(',').map(trim).filter(non-empty)`. */
  function Tags(s: string): seq<string> {
    Seqs.Filter(TrimAll(Text.Split(s, ',')), Text.NotEmpty())
  }

  /** Every tag is non-empty, has no white space at either end and holds no comma. */
  lemma TagsAreTags(s: string)
    ensures forall i :: 0 <= i < |Tags(s)| ==> IsTag(Tags(s)[i])
  {
    TagsFacts(Text.Split(s, ','), TrimAll(Text.Split(s, ',')));
  }

  lemma TagsFacts(parts: seq<string>, trimmed: seq<string>)
    requires forall i :: 0 <= i < |parts| ==> ',' !in parts[i]
    requires trimmed == TrimAll(parts)
    ensures forall i :: 0 <= i < |Seqs.Filter(trimmed, Text.NotEmpty())| ==>
      IsTag(Seqs.Filter(trimmed, Text.NotEmpty())[i])
  {
    var r := Seqs.Filter(trimmed, Text.NotEmpty());
    Seqs.FilterAllKept(trimmed, Text.NotEmpty());
    forall i | 0 <= i < |r| ensures IsTag(r[i]) {
      Seqs.FilterMembership(trimmed, Text.NotEmpty(), r[i]);
      var k :| 0 <= k < |trimmed| && trimmed[k] == r[i];
      Text.TrimKeepsOut(parts[k], ',');
    }
  }

  /** The text the edit form shows for a product's tags: `tags.join(', ')`. */
  function Listed(tags: seq<string>): string {
    Text.Join(Spaced(tags), ',')
  }

  /** Every tag after the first gets the space that follows the comma. */
  function Spaced(tags: seq<string>): (r: seq<string>)
    ensures |r| == |tags|
  {
    seq(|tags|, i requires 0 <= i < |tags| => if i == 0 then tags[i] else [' '] + tags[i])
  }

  /** Parsing the listed tags of a product gives back its tags. */
  lemma TagsOfListed(tags: seq<string>)
    requires forall i :: 0 <= i < |tags| ==> IsTag(tags[i])
    ensures Tags(Listed(tags)) == tags
  {
    var spaced := Spaced(tags);
    if |tags| == 0 {
      assert Listed(tags) == "";
      assert Text.Split("", ',') == [""];
      assert TrimAll([""]) == [""];
      assert Seqs.Filter([""], Text.NotEmpty()) == [];
    } else {
      forall i | 0 <= i < |spaced| ensures ',' !in spaced[i] {
        if i > 0 {
          assert spaced[i] == [' '] + tags[i];
        }
      }
      Text.SplitJoin(spaced, ',');
      forall i | 0 <= i < |tags| ensures Text.Trim(spaced[i]) == tags[i] {
        if i == 0 {
          Text.TrimTrimmed(tags[i]);
        } else {
          Text.TrimLeadingSpace(tags[i]);
        }
      }
      assert TrimAll(spaced) == tags;
      Seqs.FilterAll(tags, Text.NotEmpty());
    }
  }

  /** `JSON.stringify(tags)` for tags that need no escaping. */
  function TagsJson(tags: seq<string>): string {
    "[" + Text.Join(seq(|tags|, i requires 0 <= i < |tags| => "\"" + tags[i] + "\""), ',') + "]"
  }

  // ---------------------------------------------------------------------
  // The submitted FormData
  // ---------------------------------------------------------------------

  predicate Editing(editId: Option<string>) {
    editId.Some? && editId.value != ""
  }

  /** The entries appended to the `FormData`, in order. */
  function Submission(f: Fields, tags: seq<string>, imageUrl: string, editId: Option<string>): seq<Entry> {
    IdPart(editId) + Middle(f) + OriginalPart(f) + Tail(f, tags, imageUrl)
  }

  function IdPart(editId: Option<string>): seq<Entry> {
    if Editing(editId) then [Entry("id", editId.value)] else []
  }

  function Middle(f: Fields): seq<Entry> {
    [Entry("name", f.name), Entry("description", f.description), Entry("price", f.price)]
  }

  function OriginalPart(f: Fields): seq<Entry> {
    if f.originalPrice != "" then [Entry("original_price", f.originalPrice)] else []
  }

  function Tail(f: Fields, tags: seq<string>, imageUrl: string): seq<Entry> {
    [Entry("category", f.category), Entry("stock", f.stock),
     Entry("discount", if f.discount == "" then "0" else f.discount),
     Entry("tags", TagsJson(tags)), Entry("image_url", imageUrl)]
  }

  function Front(f: Fields, editId: Option<string>): seq<Entry> {
    IdPart(editId) + Middle(f) + OriginalPart(f)
  }

  lemma FrontKeys(f: Fields, editId: Option<string>)
    ensures Keys(Front(f, editId)) ==
      (if Editing(editId) then ["id"] else []) + ["name", "description", "price"] +
      (if f.originalPrice != "" then ["original_price"] else [])
  {
    var a, b, c := IdPart(editId), Middle(f), OriginalPart(f);
    KeysAppend(a, b);
    KeysAppend(a + b, c);
    assert b[1..][1..][1..] == [];
    assert Keys(b[1..][1..]) == ["price"];
    assert Keys(b[1..]) == ["description", "price"];
    assert Keys(b) == ["name", "description", "price"];
    assert Keys(a) == if Editing(editId) then ["id"] else [];
    assert Keys(c) == if f.originalPrice != "" then ["original_price"] else [];
  }

  lemma TailKeys(f: Fields, tags: seq<string>, imageUrl: string)
    ensures Keys(Tail(f, tags, imageUrl)) == ["category", "stock", "discount", "tags", "image_url"]
  {
    var d := Tail(f, tags, imageUrl);
    assert d[1..][1..] == d[2..] && d[2..][1..] == d[3..] && d[3..][1..] == d[4..] && d[4..][1..] == [];
    assert Keys(d[4..]) == ["image_url"];
    assert Keys(d[3..]) == ["tags", "image_url"];
    assert Keys(d[2..]) == ["discount", "tags", "image_url"];
    assert Keys(d[1..]) == ["stock", "discount", "tags", "image_url"];
  }

  /** The fields of the payload, in order: `id` only when editing, `original_price` only when given. */
  lemma SubmissionKeys(f: Fields, tags: seq<string>, imageUrl: string, editId: Option<string>)
    ensures Keys(Submission(f, tags, imageUrl, editId)) ==
      (if Editing(editId) then ["id"] else []) + ["name", "description", "price"] +
      (if f.originalPrice != "" then ["original_price"] else []) +
      ["category", "stock", "discount", "tags", "image_url"]
    ensures HasKey(Submission(f, tags, imageUrl, editId), "id") <==> Editing(editId)
    ensures HasKey(Submission(f, tags, imageUrl, editId), "original_price") <==> f.originalPrice != ""
  {
    var s := Submission(f, tags, imageUrl, editId);
    assert s == Front(f, editId) + Tail(f, tags, imageUrl);
    FrontKeys(f, editId);
    TailKeys(f, tags, imageUrl);
    KeysAppend(Front(f, editId), Tail(f, tags, imageUrl));
    KeyIn(s, "id");
    KeyIn(s, "original_price");
  }

  /** The discount defaults to "0", and the tags go as their JSON list. */
  lemma SubmissionValues(f: Fields, tags: seq<string>, imageUrl: string, editId: Option<string>)
    ensures Lookup(Submission(f, tags, imageUrl, editId), "discount") ==
      Some(if f.discount == "" then "0" else f.discount)
    ensures Lookup(Submission(f, tags, imageUrl, editId), "tags") == Some(TagsJson(tags))
  {
    var front := Front(f, editId);
    var d := Tail(f, tags, imageUrl);
    assert Submission(f, tags, imageUrl, editId) == front + d;
    FrontLacks(f, editId, "discount");
    FrontLacks(f, editId, "tags");
    LookupAfter(front, d, "discount");
    LookupAfter(front, d, "tags");
    TailLookups(f, tags, imageUrl);
  }

  lemma FrontLacks(f: Fields, editId: Option<string>, key: string)
    requires key != "id" && key != "name" && key != "description" && key != "price" && key != "original_price"
    ensures !HasKey(Front(f, editId), key)
  {
    FrontKeys(f, editId);
    KeyIn(Front(f, editId), key);
  }

  lemma TailLookups(f: Fields, tags: seq<string>, imageUrl: string)
    ensures Lookup(Tail(f, tags, imageUrl), "discount") == Some(if f.discount == "" then "0" else f.discount)
    ensures Lookup(Tail(f, tags, imageUrl), "tags") == Some(TagsJson(tags))
  {
    var d := Tail(f, tags, imageUrl);
    assert d[1..][1..] == d[2..] && d[2..][1..] == d[3..];
    assert Lookup(d, "discount") == Lookup(d[1..], "discount") == Lookup(d[2..], "discount");
    assert Lookup(d, "tags") == Lookup(d[1..], "tags") == Lookup(d[2..], "tags") == Lookup(d[3..], "tags");
  }

  /** `submitData.append(...)`, one field after another, with the tags already parsed. */
  method BuildSubmission(f: Fields, tags: seq<string>, imageUrl: string, editId: Option<string>)
    returns (data: seq<Entry>)
    ensures data == Submission(f, tags, imageUrl, editId)
  {
    data := [];
    if Editing(editId) {
      data := data + [Entry("id", editId.value)];
    }
    data := data + [Entry("name", f.name)];
    data := data + [Entry("description", f.description)];
    data := data + [Entry("price", f.price)];
    assert data == IdPart(editId) + Middle(f);
    if f.originalPrice != "" {
      data := data + [Entry("original_price", f.originalPrice)];
    }
    assert data == Front(f, editId);
    ghost var front := data;
    var discount := if f.discount == "" then "0" else f.discount;
    data := data + [Entry("category", f.category)];
    data := data + [Entry("stock", f.stock)];
    data := data + [Entry("discount", discount)];
    data := data + [Entry("tags", TagsJson(tags))];
    data := data + [Entry("image_url", imageUrl)];
    assert data == front + Tail(f, tags, imageUrl);
  }

  // ---------------------------------------------------------------------
  // The form component
  // ---------------------------------------------------------------------

  /** What the awaited `onSubmit(...)` settled to. */
  datatype SaveResult = Saved | SaveFailed(error: Option<string>) | SaveThrew

  const SaveFallback := "Failed to save product"
  const UnexpectedMessage := "An unexpected error occurred"

  /** The error shown after a save that was attempted. */
  function SaveError(result: SaveResult): (r: Option<string>)
    ensures r.None? <==> result.Saved?
    ensures r.Some? ==> r.value != ""
    ensures result.SaveFailed? && result.error.Some? && result.error.value != "" ==> r == result.error
    ensures result.SaveFailed? && (result.error.None? || result.error.value == "") ==> r == Some(SaveFallback)
    ensures result.SaveThrew? ==> r == Some(UnexpectedMessage)
  {
    match result
    case Saved => None
    case SaveFailed(e) => Some(if e.Some? && e.value != "" then e.value else SaveFallback)
    case SaveThrew => Some(UnexpectedMessage)
  }

  class ProductEditor {
    var fields: Fields
    var imageUrl: string
    var error: string

    /** A blank form. Filling it from an existing product is not part of this model. */
    constructor()
      ensures fields == EmptyFields && imageUrl == "" && error == ""
    {
      fields := EmptyFields;
      imageUrl := "";
      error := "";
    }

    /** `handleChange`: one field takes the typed value. */
    method Change(n: FieldName, value: string)
      modifies this
      ensures fields == With(old(fields), n, value)
      ensures imageUrl == old(imageUrl) && error == old(error)
    {
      fields := With(fields, n, value);
    }

    /** The image picker's callback. */
    method SetImage(url: string)
      modifies this
      ensures imageUrl == url
      ensures fields == old(fields) && error == old(error)
    {
      imageUrl := url;
    }

    /**
     * `handleSubmit`: a failing check is shown and nothing is sent; otherwise
     * the payload is sent and `result` decides between leaving the page and
     * showing an error.
     */
    method Submit(editId: Option<string>, number: string -> Option<real>, isUrl: string -> bool, result: SaveResult)
      returns (sent: Option<seq<Entry>>, leave: bool)
      modifies this
      ensures fields == old(fields) && imageUrl == old(imageUrl)
      ensures FormError(fields, imageUrl, number, isUrl) != "" ==>
        sent.None? && !leave && error == FormError(fields, imageUrl, number, isUrl)
      ensures FormError(fields, imageUrl, number, isUrl) == "" ==>
        sent == Some(Submission(fields, Tags(fields.tags), imageUrl, editId)) &&
        leave == result.Saved? &&
        error == (if result.Saved? then old(error) else SaveError(result).value)
    {
      var validation := FormError(fields, imageUrl, number, isUrl);
      if validation != "" {
        error := validation;
        return None, false;
      }
      var tags := Tags(fields.tags);
      var data := BuildSubmission(fields, tags, imageUrl, editId);
      sent := Some(data);
      var failure := SaveError(result);
      if failure.None? {
        leave := true;
      } else {
        leave := false;
        error := failure.value;
      }
    }
  }
}
