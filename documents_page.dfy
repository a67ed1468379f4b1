/** The student documents page (src/pages/dashboard/documents.tsx): a local
    list of documents with a mock upload and a delete. */
module DocumentsPage {
  import opened Seqs
  import opened Text
  import opened Types
  import opened DataContext

  datatype DocumentStatus = DocumentPending | DocumentApproved | DocumentRejected

  /** The page's own document record (not the `Document` type of the shared
      types file). */
  datatype Document = Document(id: string, name: string, kind: string, status: DocumentStatus, uploadDate: string, fileSize: string)

  const SeedDocuments: seq<Document> := [
    Document("doc1", "Student ID Card", "Identity", DocumentApproved, "2023-01-15", "1.2 MB"),
    Document("doc2", "Address Proof", "Address", DocumentPending, "2023-02-20", "2.5 MB"),
    Document("doc3", "Medical Certificate", "Medical", DocumentRejected, "2023-03-05", "1.8 MB")
  ]

  /** The mock document `handleUpload` creates on `today`. */
  function MakeUpload(today: string, id: string): (d: Document)
    ensures d.id == id && d.status == DocumentPending && d.name == "New Document" && d.uploadDate == today
  {
    Document(id, "New Document", "Other", DocumentPending, today, "0.5 MB")
  }

  function DocumentKey(d: Document): string { d.id }

  /** The delete button is enabled unless the document is approved. */
  predicate DeleteEnabled(d: Document) {
    d.status != DocumentApproved
  }

  /** Everyone but a student, and a signed-out visitor, gets the restricted
      view. */
  predicate Restricted(user: Option<User>) {
    !(user.Some? && user.value.role == Student)
  }

  /** Ids can collide: deleting doc2 from the seeded list and uploading
      gives a second document "doc3". */
  lemma SeedDocumentIdCollision(today: string)
    ensures var ds := Added(Deleted(SeedDocuments, DocumentKey, "doc2"), MakeUpload, "doc", today);
      |ds| == 3 && ds[1].id == "doc3" && ds[2].id == "doc3"
  {
    assert NatToString(1) == "1" && NatToString(2) == "2" && NatToString(3) == "3";
    assert SequentialIds(SeedDocuments, DocumentKey, "doc");
    DeleteThenAddDuplicatesId(SeedDocuments, DocumentKey, MakeUpload, "doc", today, 1);
  }

  class DocumentsPage {
    var documents: seq<Document>

    constructor ()
      ensures documents == SeedDocuments
    {
      documents := SeedDocuments;
    }

    /** `handleUpload`: one pending document with id `doc{length + 1}`. */
    method HandleUpload(today: string)
      modifies this
      ensures documents == Added(old(documents), MakeUpload, "doc", today)
    {
      documents := Added(documents, MakeUpload, "doc", today);
    }

    /** `handleDelete`: every document with the id removed, the rest kept in
        order. */
    method HandleDelete(id: string)
      modifies this
      ensures documents == Deleted(old(documents), DocumentKey, id)
    {
      documents := Deleted(documents, DocumentKey, id);
    }
  }

  /** A client of the page: delete doc2, upload, and the last two documents
      share the id "doc3". */
  method UploadAfterDeleteScenario(today: string) returns (first: Document, second: Document)
    ensures first.id == second.id == "doc3"
  {
    var page := new DocumentsPage();
    page.HandleDelete("doc2");
    page.HandleUpload(today);
    SeedDocumentIdCollision(today);
    first, second := page.documents[1], page.documents[2];
  }
}
