/** The helpers of lib/utils.ts: `valueUpdater`, `getReceiptSignedUrl` and `isImageFile`. */
module Utils {
  import opened Wrappers
  import opened Strings

  /** Line 63, in its order. */
  const ImageExtensions: seq<string> := [".jpg", ".jpeg", ".png", ".gif", ".webp", ".bmp", ".svg"]

  /** `exts.some(ext => name.endsWith(ext))`. */
  function EndsWithAny(name: string, exts: seq<string>): (r: bool)
    decreases |exts|
  {
    exts != [] && (EndsWith(name, exts[0]) || EndsWithAny(name, exts[1..]))
  }

  lemma {:induction false} EndsWithAnyExists(name: string, exts: seq<string>)
    ensures EndsWithAny(name, exts) <==> exists i :: 0 <= i < |exts| && EndsWith(name, exts[i])
    decreases |exts|
  {
    if exts != [] {
      EndsWithAnyExists(name, exts[1..]);
      if exists i :: 0 <= i < |exts[1..]| && EndsWith(name, exts[1..][i]) {
        var i :| 0 <= i < |exts[1..]| && EndsWith(name, exts[1..][i]);
        assert exts[i + 1] == exts[1..][i];
      }
      if exists i :: 0 <= i < |exts| && EndsWith(name, exts[i]) {
        var i :| 0 <= i < |exts| && EndsWith(name, exts[i]);
        if i > 0 {
          assert exts[1..][i - 1] == exts[i];
        }
      }
    }
  }

  /** Lines 62-66. */
  function IsImageFile(filename: string): (r: bool)
    ensures r <==> exists i :: 0 <= i < |ImageExtensions| && EndsWith(Lower(filename), ImageExtensions[i])
  {
    EndsWithAnyExists(Lower(filename), ImageExtensions);
    EndsWithAny(Lower(filename), ImageExtensions)
  }

  /** Changing the case of letters in a file name never changes whether it is an image. */
  lemma IsImageFileIgnoresCase(f: string, g: string)
    requires |f| == |g| && forall i :: 0 <= i < |f| ==> SameLetterCase(f[i], g[i])
    ensures IsImageFile(f) == IsImageFile(g)
  {
    LowerIgnoresCase(f, g);
  }

  lemma LowerAppend(s: string, t: string)
    ensures Lower(s + t) == Lower(s) + Lower(t)
  {
  }

  /** Any name that ends in one of the extensions, in any case, is an image. */
  lemma ExtensionMakesImage(name: string, ext: string, i: nat)
    requires i < |ImageExtensions| && Lower(ext) == ImageExtensions[i]
    ensures IsImageFile(name + ext)
  {
    LowerAppend(name, ext);
    EndsWithAppend(Lower(name), Lower(ext));
  }

  lemma ExtensionsStartWithDot()
    ensures forall i :: 0 <= i < |ImageExtensions| ==> |ImageExtensions[i]| >= 1 && ImageExtensions[i][0] == '.'
  {
  }

  /** Every extension starts with a dot, so a name without a dot is never an image. */
  lemma NoDotNoImage(name: string)
    requires forall k :: 0 <= k < |name| ==> name[k] != '.'
    ensures !IsImageFile(name)
  {
    var l := Lower(name);
    ExtensionsStartWithDot();
  }

  /** The case of the extension does not matter, and the dot belongs to it. */
  lemma IsImageFileExamples()
    ensures IsImageFile("Receipt.JPG") && !IsImageFile("jpg")
  {
    ExtensionMakesImage("Receipt", ".JPG", 0);
    assert "Receipt" + ".JPG" == "Receipt.JPG";
    NoDotNoImage("jpg");
  }

  // ----- valueUpdater -----

  /** A Vue `Ref`. */
  class Ref<T> {
    var value: T

    constructor (v: T)
      ensures value == v
    {
      value := v;
    }
  }

  /** An updater of @tanstack/vue-table: a function of the old value, or a new value. */
  datatype Updater<!T> = Fn(f: T -> T) | Value(v: T)

  /** What an updater makes of `old`. */
  function Apply<T>(u: Updater<T>, old_: T): T {
    match u
    case Fn(f) => f(old_)
    case Value(v) => v
  }

  /** Applying `Value(v)` gives `v` whatever came before, so doing it twice is doing it once;
      applying `Fn(f)` then `Fn(g)` is applying their composition. */
  lemma ApplyLaws<T>(v: T, f: T -> T, g: T -> T, x: T)
    ensures Apply(Value(v), Apply(Value(v), x)) == Apply(Value(v), x) == v
    ensures Apply(Fn(g), Apply(Fn(f), x)) == Apply(Fn(y => g(f(y))), x)
  {
  }

  /** Lines 10-15. */
  method ValueUpdater<T>(u: Updater<T>, r: Ref<T>)
    modifies r
    ensures r.value == Apply(u, old(r.value))
    ensures u.Value? ==> r.value == u.v
    ensures u.Fn? ==> r.value == u.f(old(r.value))
  {
    match u {
      case Fn(f) => r.value := f(r.value);
      case Value(v) => r.value := v;
    }
  }

  // ----- getReceiptSignedUrl -----

  /** What `createSignedUrl` answered: data with a `signedUrl` (empty when it has none), no
      data, an error, or it threw. */
  datatype StorageAnswer = Signed(url: string) | NoData | StorageError | StorageThrew

  /** The `client` argument: missing, without `storage`, or a usable one and its answer. */
  datatype Client = NoClient | NoStorage | Usable(answer: StorageAnswer)

  datatype SignedUrlRequest = SignedUrlRequest(bucket: string, path: string, expiresIn: nat)

  datatype Receipt = Receipt(signedUrl: Option<string>, isImage: bool)

  const NoReceipt: Receipt := Receipt(None, false)

  /** Lines 23-57: the receipt link and whether it is an image, and the request made to the
      storage service. It never fails: every problem yields no link and no image. */
  function GetReceiptSignedUrl(client: Client, receiptUrl: string): (r: (Receipt, Option<SignedUrlRequest>))
    ensures receiptUrl == "" || !client.Usable? ==> r == (NoReceipt, None)
    ensures receiptUrl != "" && client.Usable? ==> r.1 == Some(SignedUrlRequest("receipts", receiptUrl, 60))
    ensures r.0.signedUrl.Some? <==> receiptUrl != "" && client.Usable? && client.answer.Signed? && client.answer.url != ""
    ensures r.0.signedUrl.Some? ==> r.0.signedUrl.value == client.answer.url
    ensures receiptUrl != "" && client.Usable? && (client.answer.Signed? || client.answer.NoData?) ==>
              r.0.isImage == IsImageFile(receiptUrl)
    ensures client.Usable? && (client.answer.StorageError? || client.answer.StorageThrew?) ==> r.0 == NoReceipt
  {
    if receiptUrl == "" then (NoReceipt, None)
    else
      match client
      case NoClient => (NoReceipt, None)
      case NoStorage => (NoReceipt, None)
      case Usable(answer) =>
        var request := Some(SignedUrlRequest("receipts", receiptUrl, 60));
        match answer
        case Signed(url) => (Receipt(if url != "" then Some(url) else None, IsImageFile(receiptUrl)), request)
        case NoData => (Receipt(None, IsImageFile(receiptUrl)), request)
        case _ => (NoReceipt, request)
  }

  /** A receipt is only reported as an image when its path names an image file. */
  lemma ImageOnlyForImageFiles(client: Client, receiptUrl: string)
    ensures GetReceiptSignedUrl(client, receiptUrl).0.isImage ==> receiptUrl != "" && IsImageFile(receiptUrl)
  {
  }
}
