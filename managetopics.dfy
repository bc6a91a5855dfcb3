/**
 * The pure parts of the topic management page's script
 * (static/js/manage_topics.js): the topic-name rule of
 * `validateTopicName` and `createTopic`, the option list of `loadIndexes`,
 * and the checks `uploadDocument` makes before sending a file. The page's
 * DOM and its requests are not modelled; each handler yields the request it
 * would send, if any.
 */
module ManageTopicsPage {
  import opened Wrappers
  import opened Text
  import opened Seqs
  import App
  import IndexPage

  /** ---------- topic names ---------- */

  /** `/^[a-z0-9-]+$/.test(name)`. */
  predicate ClientNameValid(name: string)
  {
    name != "" && forall i :: 0 <= i < |name| ==> App.NameChar(name[i])
  }

  /** `createTopic`: nothing is sent for an empty or invalid name; otherwise
      the name and the description as typed. */
  function CreateTopic(name: string, description: string): (r: Option<(string, string)>)
    ensures r.Some? <==> ClientNameValid(name)
    ensures r.Some? ==> r.value == (name, description)
  {
    if name == "" || !ClientNameValid(name) then None else Some((name, description))
  }

  /** A name the page lets through is refused by the server only when it
      holds no letter, and every ASCII name the server accepts passes the
      page's check. */
  lemma ClientServerNames(name: string, u: App.CharTables)
    ensures ClientNameValid(name) ==>
              (App.ServerAccepts(name, u) <==> exists i :: 0 <= i < |name| && 'a' <= name[i] <= 'z')
    ensures (forall i :: 0 <= i < |name| ==> App.IsAscii(name[i])) && App.ServerAccepts(name, u) ==>
              ClientNameValid(name)
  {
    if forall i :: 0 <= i < |name| ==> App.IsAscii(name[i]) {
      App.AsciiNames(name, u);
    }
  }

  /** The page sends names the server then answers with 400. */
  lemma DigitNamePassesPage(u: App.CharTables)
    ensures ClientNameValid("123") && !App.ServerAccepts("123", u)
  {
    App.DigitsRefused(u);
    assert App.NameChar("123"[0]) && App.NameChar("123"[1]) && App.NameChar("123"[2]);
  }

  /** ---------- loadIndexes ---------- */

  /** The topic drop-down: a "No topics available" note, or the options. */
  datatype TopicOptions = NoTopics | Options(values: seq<string>)

  /** `loadIndexes`: the note exactly when the server lists no index;
      otherwise one option per listed index except `table_of_contents`. */
  function LoadIndexes(data: seq<string>): (r: TopicOptions)
    ensures r.NoTopics? <==> data == []
    ensures r.Options? ==> forall t :: t in r.values <==> t in data && t != "table_of_contents"
    ensures r.Options? ==> IsSubsequence(r.values, data)
  {
    if |data| == 0 then NoTopics else Options(Without(data, "table_of_contents"))
  }

  /** A listing that holds only the catalog gives neither the note nor an
      option. */
  lemma CatalogOnlyListing()
    ensures LoadIndexes(["table_of_contents"]) == Options([])
  {
    var r := LoadIndexes(["table_of_contents"]);
    assert forall t :: t !in r.values;
  }

  /** The drop-down of this page and the checkboxes of the chat page offer
      the same topics, in the same order. */
  lemma SameTopicsAsChatPage(data: seq<string>)
    requires data != []
    ensures LoadIndexes(data).values == IndexPage.TopicCheckboxes(data)[1..]
  {
  }

  /** ---------- uploadDocument ---------- */

  /** `['jpg', 'jpeg', 'png'].includes(name.split('.').pop().toLowerCase())`. */
  predicate IsImageName(name: string)
  {
    Lower(AfterLast(name, '.')) in ["jpg", "jpeg", "png"]
  }

  /** The form `uploadDocument` posts. */
  datatype UploadForm = UploadForm(fileName: string, indexName: string, imageDescription: Option<string>)

  /** `uploadDocument`: nothing is sent without a file or a topic, nor for
      an image whose trimmed description is empty; a description is added
      to the form only when it is not empty. */
  function UploadDocument(file: Option<string>, indexName: string, descriptionInput: string): (r: Option<UploadForm>)
  {
    if file.None? || indexName == "" then None
    else
      var description := JsTrim(descriptionInput);
      if IsImageName(file.value) && description == "" then None
      else Some(UploadForm(file.value, indexName, if description != "" then Some(description) else None))
  }

  /** A form goes out exactly when a file and a topic are chosen and an
      image comes with a description; it carries the chosen file and topic,
      and the trimmed description whenever there is one. */
  lemma UploadGuards(file: Option<string>, indexName: string, descriptionInput: string)
    ensures UploadDocument(file, indexName, descriptionInput).Some? <==>
              file.Some? && indexName != "" && (IsImageName(file.value) ==> JsTrim(descriptionInput) != "")
    ensures UploadDocument(file, indexName, descriptionInput).Some? ==>
              var f := UploadDocument(file, indexName, descriptionInput).value;
              f.fileName == file.value && f.indexName == indexName &&
              (f.imageDescription.Some? <==> JsTrim(descriptionInput) != "") &&
              (f.imageDescription.Some? ==> f.imageDescription.value == JsTrim(descriptionInput)) &&
              (IsImageName(f.fileName) ==> f.imageDescription.Some?)
  {
  }

  /** Every file the server stores as an image the page also treats as one
      (and so sends with a description). */
  lemma ServerImagesAreClientImages(name: string)
    ensures App.UploadedAsImage(name) ==> IsImageName(name)
  {
    var ext := AfterLast(name, '.');
    assert App.Extension(name) == "." + ext;
    if App.UploadedAsImage(name) {
      assert ("." + ext)[1..] == ext;
      assert ext == "jpg" || ext == "jpeg" || ext == "png";
      assert forall i :: 0 <= i < |ext| ==> LowerChar(ext[i]) == ext[i];
      assert Lower(ext) == ext;
    }
  }

  /** The converse fails: the page lower-cases the extension and the server
      does not, so an upper-case image extension asks for a description yet
      is stored as a document. */
  lemma UpperCaseImageExtension()
    ensures IsImageName("a.PNG") && !App.UploadedAsImage("a.PNG")
  {
    AfterLastOf("a", '.', "PNG");
    assert "a" + ['.'] + "PNG" == "a.PNG";
    var l := Lower("PNG");
    assert l[0] == 'p' && l[1] == 'n' && l[2] == 'g';
    assert l == "png";
    assert App.Extension("a.PNG") == ".PNG";
  }
}
