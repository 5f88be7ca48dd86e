/** The certifications page: the certification list and its two-step delete. */
module Certifications {
  import opened Wrappers
  import opened Seqs

  datatype Certification = Certification(
    id: int,
    name: string,
    issuer: string,
    issueDate: string,
    expiryDate: string,
    status: string,
    documentUrl: string)

  function CertificationId(c: Certification): int {
    c.id
  }

  /** `certifications.filter(cert => cert.id !== id)`. */
  function RemoveById(certs: seq<Certification>, id: int): seq<Certification> {
    RemoveKey(CertificationId, id, certs)
  }

  class CertificationsPage {
    var certifications: seq<Certification>
    var isDeleteDialogOpen: bool
    var certificationToDelete: Option<int>

    constructor (initial: seq<Certification>)
      ensures certifications == initial
      ensures !isDeleteDialogOpen && certificationToDelete == None
    {
      certifications := initial;
      isDeleteDialogOpen := false;
      certificationToDelete := None;
    }

    /** `confirmDelete`: remember the certification and open the dialog; the list is untouched. */
    method ConfirmDelete(id: int)
      modifies this
      ensures certificationToDelete == Some(id) && isDeleteDialogOpen
      ensures certifications == old(certifications)
    {
      certificationToDelete := Some(id);
      isDeleteDialogOpen := true;
    }

    /** `handleDelete`: the dialog's Delete button. */
    method HandleDelete()
      modifies this
      ensures old(certificationToDelete).None? ==>
        && certifications == old(certifications) && isDeleteDialogOpen == old(isDeleteDialogOpen)
        && certificationToDelete == None
      ensures old(certificationToDelete).Some? ==>
        && certifications == RemoveById(old(certifications), old(certificationToDelete).value)
        && !isDeleteDialogOpen && certificationToDelete == None
    {
      if certificationToDelete.Some? {
        certifications := RemoveById(certifications, certificationToDelete.value);
        isDeleteDialogOpen := false;
        certificationToDelete := None;
      }
    }

    /**
     * The dialog's `onOpenChange` and its Cancel button (`open == false`): the
     * list and the pending id are left alone, so a later Delete still removes it.
     */
    method SetDeleteDialogOpen(open: bool)
      modifies this`isDeleteDialogOpen
      ensures isDeleteDialogOpen == open
    {
      isDeleteDialogOpen := open;
    }
  }
}
