/** components/UploadModal.tsx: the domain to scan-type table, the list of
    uploadable domains, and the dialog's selection state. */
module UploadModal {
  import opened Wrappers
  import opened Types

  /** The keys of `HealthDomainScanTypes` in declaration order, which is the
      order `Object.entries` yields them. */
  const TableOrder: seq<HealthDomain> := [
    BreastCancerAnalysis, DentalOrthodontics, BreastHealth, SkinHealth, Cardiovascular,
    BoneHealth, ReproductiveHealth, Pregnancy, Nutrition, MentalHealth, CervicalHealth,
    PreventiveHealth]

  /** `HealthDomainScanTypes[d]` */
  function ScanTypesFor(d: HealthDomain): seq<ScanType> {
    match d
    case BreastCancerAnalysis => [BreastImage]
    case DentalOrthodontics => [CephalometricXray]
    case BreastHealth => [Mammogram, Ultrasound, Mri]
    case SkinHealth => [SkinPhoto]
    case Cardiovascular => [Ecg]
    case BoneHealth => [DexaScan]
    case ReproductiveHealth => [Ultrasound]
    case Pregnancy => [Ultrasound]
    case Nutrition => [MealPhoto]
    case MentalHealth => []
    case CervicalHealth => [PapSmear]
    case PreventiveHealth => []
  }

  /** The table lists each domain at most once (and, by EveryDomainInTable, at least once). */
  lemma TableHasNoDuplicates()
    ensures |TableOrder| == 12
    ensures forall i, j :: 0 <= i < j < |TableOrder| ==> TableOrder[i] != TableOrder[j]
  {
  }

  /** Only the mental-health and preventive-health domains have no scan type. */
  lemma EmptyScanTypeLists(d: HealthDomain)
    ensures ScanTypesFor(d) == [] <==> d in {MentalHealth, PreventiveHealth}
  {
  }

  /** `.filter(([, scanTypes]) => scanTypes.length > 0)` over the table keys. */
  function FilterUploadable(ds: seq<HealthDomain>): seq<HealthDomain> {
    if ds == [] then []
    else if ScanTypesFor(ds[0]) != [] then [ds[0]] + FilterUploadable(ds[1..])
    else FilterUploadable(ds[1..])
  }

  /** The filter keeps exactly the domains with a scan type. */
  lemma {:induction false} FilterUploadableMembers(ds: seq<HealthDomain>)
    ensures forall d :: d in FilterUploadable(ds) <==> d in ds && ScanTypesFor(d) != []
  {
    if ds != [] {
      FilterUploadableMembers(ds[1..]);
      assert ds == [ds[0]] + ds[1..];
    }
  }

  lemma EveryDomainInTable(d: HealthDomain)
    ensures d in TableOrder
  {
    match d
    case BreastCancerAnalysis => assert TableOrder[0] == d;
    case DentalOrthodontics => assert TableOrder[1] == d;
    case BreastHealth => assert TableOrder[2] == d;
    case SkinHealth => assert TableOrder[3] == d;
    case Cardiovascular => assert TableOrder[4] == d;
    case BoneHealth => assert TableOrder[5] == d;
    case ReproductiveHealth => assert TableOrder[6] == d;
    case Pregnancy => assert TableOrder[7] == d;
    case Nutrition => assert TableOrder[8] == d;
    case MentalHealth => assert TableOrder[9] == d;
    case CervicalHealth => assert TableOrder[10] == d;
    case PreventiveHealth => assert TableOrder[11] == d;
  }

  /** `uploadableDomains`: the domains with scan types, in table order. */
  function UploadableDomains(): (r: seq<HealthDomain>)
    ensures forall d :: d in r <==> ScanTypesFor(d) != []
  {
    var r := FilterUploadable(TableOrder);
    FilterUploadableMembers(TableOrder);
    assert forall d :: d in TableOrder by {
      forall d: HealthDomain ensures d in TableOrder { EveryDomainInTable(d); }
    }
    r
  }

  /** The filter distributes over concatenation. */
  lemma {:induction false} FilterAppend(a: seq<HealthDomain>, b: seq<HealthDomain>)
    ensures FilterUploadable(a + b) == FilterUploadable(a) + FilterUploadable(b)
  {
    if a == [] {
      assert a + b == b;
    } else {
      FilterAppend(a[1..], b);
      assert (a + b)[0] == a[0];
      assert (a + b)[1..] == a[1..] + b;
      if ScanTypesFor(a[0]) != [] {
        assert FilterUploadable(a + b) == [a[0]] + FilterUploadable(a[1..] + b);
        assert FilterUploadable(a) == [a[0]] + FilterUploadable(a[1..]);
      } else {
        assert FilterUploadable(a + b) == FilterUploadable(a[1..] + b);
        assert FilterUploadable(a) == FilterUploadable(a[1..]);
      }
    }
  }

  /** The filter keeps a list whose every domain has a scan type unchanged. */
  lemma {:induction false} FilterKeepsAll(ds: seq<HealthDomain>)
    requires forall i :: 0 <= i < |ds| ==> ScanTypesFor(ds[i]) != []
    ensures FilterUploadable(ds) == ds
  {
    if ds != [] {
      FilterKeepsAll(ds[1..]);
      assert ds == [ds[0]] + ds[1..];
    }
  }

  /** Concretely, the table order with the two empty domains dropped. */
  lemma UploadableDomainsValue()
    ensures UploadableDomains() == TableOrder[..9] + TableOrder[10..11]
    ensures UploadableDomains() == [
      BreastCancerAnalysis, DentalOrthodontics, BreastHealth, SkinHealth, Cardiovascular,
      BoneHealth, ReproductiveHealth, Pregnancy, Nutrition, CervicalHealth]
  {
    var t := TableOrder;
    assert t == t[..9] + ([t[9]] + (t[10..11] + [t[11]]));
    FilterKeepsAll(t[..9]);
    FilterKeepsAll(t[10..11]);
    assert FilterUploadable([t[9]]) == [];
    assert FilterUploadable([t[11]]) == [];
    FilterAppend(t[10..11], [t[11]]);
    FilterAppend([t[9]], t[10..11] + [t[11]]);
    FilterAppend(t[..9], [t[9]] + (t[10..11] + [t[11]]));
  }

  /** The scan type `handleDomainChange` selects: the first listed one, or
      MAMMOGRAM for a domain with none. */
  function DefaultScanType(d: HealthDomain): (t: ScanType)
    ensures ScanTypesFor(d) != [] ==> t == ScanTypesFor(d)[0] && t in ScanTypesFor(d)
    ensures ScanTypesFor(d) == [] ==> t == Mammogram
  {
    var types := ScanTypesFor(d);
    if |types| > 0 then types[0] else Mammogram
  }

  /** For every domain the dialog offers, the default scan type is valid for it. */
  lemma DefaultScanTypeValid(d: HealthDomain)
    requires d in UploadableDomains()
    ensures DefaultScanType(d) in ScanTypesFor(d)
  {
  }

  const NoFileError := "Please select a file to upload."

  /** The arguments of an `onUpload` call. */
  datatype UploadRequest = UploadRequest(file: FileInfo, domain: HealthDomain, scanType: ScanType)

  /** The dialog's state fields. */
  class UploadDialog {
    var file: Option<FileInfo>
    var domain: HealthDomain
    var scanType: ScanType
    var error: string

    /** The selection is one the table allows. */
    predicate ValidSelection()
      reads this
    {
      scanType in ScanTypesFor(domain)
    }

    constructor ()
      ensures file == None && domain == BreastCancerAnalysis && scanType == BreastImage && error == ""
      ensures ValidSelection()
    {
      file := None;
      domain := BreastCancerAnalysis;
      scanType := BreastImage;
      error := "";
    }

    /** `handleDomainChange` */
    method ChangeDomain(d: HealthDomain)
      modifies this
      ensures domain == d && scanType == DefaultScanType(d)
      ensures file == old(file) && error == old(error)
      ensures d in UploadableDomains() ==> ValidSelection()
    {
      domain := d;
      scanType := DefaultScanType(d);
    }

    /** The scan-type drop-down's `onChange`, which offers the domain's list. */
    method ChangeScanType(t: ScanType)
      modifies this
      ensures scanType == t && domain == old(domain) && file == old(file) && error == old(error)
      ensures t in ScanTypesFor(domain) ==> ValidSelection()
    {
      scanType := t;
    }

    /** The upload widget's `onAdd`, given the widget's new file list: the
        first file replaces the current one; an empty list changes nothing.
        The error is left as it was. */
    method AddFiles(newState: seq<FileInfo>)
      modifies this
      ensures file == if |newState| > 0 then Some(newState[0]) else old(file)
      ensures domain == old(domain) && scanType == old(scanType) && error == old(error)
    {
      if |newState| > 0 {
        file := Some(newState[0]);
      }
    }

    /** The upload widget's `onRemove`. */
    method RemoveFile()
      modifies this
      ensures file == None
      ensures domain == old(domain) && scanType == old(scanType) && error == old(error)
    {
      file := None;
    }

    /** `handleUpload`: the `onUpload` call it makes, if any. A scan type is
        always set, so the scan-type guard never fires. */
    method Upload() returns (request: Option<UploadRequest>)
      modifies this
      ensures old(file).None? ==> request == None && error == NoFileError
      ensures old(file).Some? ==> request == Some(UploadRequest(old(file).value, domain, scanType))
                                  && error == old(error)
      ensures file == old(file) && domain == old(domain) && scanType == old(scanType)
    {
      if file.None? {
        error := NoFileError;
        return None;
      }
      request := Some(UploadRequest(file.value, domain, scanType));
    }

    /** `handleClose`: `closed` tells whether `onClose` was called. */
    method Close(isProcessing: bool) returns (closed: bool)
      modifies this
      ensures closed == !isProcessing
      ensures isProcessing ==> file == old(file) && domain == old(domain)
                               && scanType == old(scanType) && error == old(error)
      ensures !isProcessing ==> file == None && error == ""
                                && domain == BreastCancerAnalysis && scanType == BreastImage
      ensures !isProcessing ==> ValidSelection()
    {
      if isProcessing {
        return false;
      }
      file := None;
      error := "";
      domain := BreastCancerAnalysis;
      scanType := BreastImage;
      closed := true;
    }
  }
}
