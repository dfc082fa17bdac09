/**
 * The attachment gallery of one record: the label key and colour classes
 * for each tag, the guard that hides an empty gallery and the enlarged-image
 * dialog's selection.
 */
module MedicalAttachments {
  import opened Wrappers
  import opened MockData
  import opened LanguageContext

  /** `getAttachmentLabel`: the table key of a tag's label; an unknown tag reads as a document. */
  function LabelKey(tag: string): (k: string)
    ensures IsAttachmentTag(tag) ==> k == tag + "Label"
    ensures !IsAttachmentTag(tag) ==> k == "documentLabel"
    ensures k in AttachmentsPhrases
  {
    if tag == "xray" then "xrayLabel"
    else if tag == "scan" then "scanLabel"
    else if tag == "lab" then "labLabel"
    else if tag == "ecg" then "ecgLabel"
    else if tag == "document" then "documentLabel"
    else if tag == "prescription" then "prescriptionLabel"
    else "documentLabel"
  }

  /** On the six known tags the labels are pairwise distinct: no two kinds of attachment read alike. */
  lemma LabelKeyInjective(a: string, b: string)
    requires IsAttachmentTag(a) && IsAttachmentTag(b)
    requires LabelKey(a) == LabelKey(b)
    ensures a == b
  {
    assert a == LabelKey(a)[..|a|];
    assert b == LabelKey(b)[..|b|];
  }

  /** `getAttachmentColor`: the badge's colour classes; an unknown tag is coloured as a document. */
  function ColorClasses(tag: string): (c: string)
    ensures tag == "document" || !IsAttachmentTag(tag) <==> c == "bg-gray-100 text-gray-700 border-gray-200"
  {
    if tag == "xray" then "bg-blue-100 text-blue-700 border-blue-200"
    else if tag == "scan" then "bg-purple-100 text-purple-700 border-purple-200"
    else if tag == "lab" then "bg-green-100 text-green-700 border-green-200"
    else if tag == "ecg" then "bg-red-100 text-red-700 border-red-200"
    else if tag == "document" then "bg-gray-100 text-gray-700 border-gray-200"
    else if tag == "prescription" then "bg-orange-100 text-orange-700 border-orange-200"
    else "bg-gray-100 text-gray-700 border-gray-200"
  }

  /** The six known tags get six different colour classes. */
  lemma ColorClassesDistinct()
    ensures forall i, j :: 0 <= i < j < |AttachmentTags| ==> ColorClasses(AttachmentTags[i]) != ColorClasses(AttachmentTags[j])
  {
  }

  /** So a badge's colours name its tag, for every known tag. */
  lemma ColorClassesInjective(a: string, b: string)
    requires IsAttachmentTag(a) && IsAttachmentTag(b)
    requires ColorClasses(a) == ColorClasses(b)
    ensures a == b
  {
    var i :| 0 <= i < |AttachmentTags| && AttachmentTags[i] == a;
    var j :| 0 <= j < |AttachmentTags| && AttachmentTags[j] == b;
    ColorClassesDistinct();
    assert !(i < j) && !(j < i);
  }

  /** An unknown tag gets exactly the document colours. */
  lemma UnknownTagColoredAsDocument(tag: string)
    requires !IsAttachmentTag(tag)
    ensures ColorClasses(tag) == ColorClasses("document")
  {
  }

  /** Whether the gallery renders at all: an absent or empty list renders nothing. */
  function RendersGallery(attachments: Option<seq<MedicalAttachment>>): (shown: bool)
    ensures shown <==> attachments.Some? && |attachments.value| > 0
  {
    attachments.GetOr([]) != []
  }

  /** The gallery's state: which attachment, if any, is enlarged in the dialog. */
  class Gallery {
    const attachments: seq<MedicalAttachment>
    var selectedImage: Option<MedicalAttachment>

    constructor (attachments: seq<MedicalAttachment>)
      ensures this.attachments == attachments && selectedImage == None
    {
      this.attachments := attachments;
      selectedImage := None;
    }

    /** The dialog is open exactly while an attachment is selected. */
    predicate DialogOpen()
      reads this
    {
      selectedImage.Some?
    }

    /** A click on a thumbnail enlarges exactly that attachment. */
    method Select(a: MedicalAttachment)
      requires a in attachments
      modifies this
      ensures selectedImage == Some(a) && DialogOpen()
    {
      selectedImage := Some(a);
    }

    /** Closing the dialog clears the selection. */
    method CloseDialog()
      modifies this
      ensures selectedImage == None && !DialogOpen()
    {
      selectedImage := None;
    }
  }
}
