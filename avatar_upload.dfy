/** The profile picture picker: it checks the chosen file's type and size, shows a local
    preview, and after the (simulated) upload hands the parent a generated avatar URL. The
    handler runs in two halves around its `await`: the checks and the start of the upload, and
    the end of the upload. */
module AvatarUpload {
  import opened Wrappers
  import opened Text
  import opened Records

  /** The chosen file: its MIME type and its size in bytes. */
  datatype File = File(mimeType: string, size: nat)

  const ImagePrefix := "image/"
  const MaxBytes: nat := 5 * 1024 * 1024

  /** The outcome of the checks. */
  datatype Check = NoFile | NotAnImage | TooLarge | Accepted

  /** The checks of `handleFileSelect`, in their order. */
  function CheckFile(file: Option<File>): (c: Check)
    ensures c == NoFile <==> file == None
    ensures c == NotAnImage <==> file.Some? && !(ImagePrefix <= file.value.mimeType)
    ensures c == TooLarge <==> file.Some? && ImagePrefix <= file.value.mimeType && file.value.size > MaxBytes
    ensures c == Accepted <==> file.Some? && ImagePrefix <= file.value.mimeType && file.value.size <= MaxBytes
  {
    if file.None? then NoFile
    else if !(ImagePrefix <= file.value.mimeType) then NotAnImage
    else if file.value.size > MaxBytes then TooLarge
    else Accepted
  }

  /** The size limit is inclusive: an image of exactly 5 MiB passes, one byte more does not. */
  lemma SizeLimitInclusive(mimeType: string)
    requires ImagePrefix <= mimeType
    ensures CheckFile(Some(File(mimeType, 5242880))) == Accepted
    ensures CheckFile(Some(File(mimeType, 5242881))) == TooLarge
  {
  }

  const UrlPrefix := "https://api.dicebear.com/7.x/avataaars/svg?seed="
  const UrlSuffix := "&backgroundColor=b6e3f4"

  /** The URL handed to `onAvatarChange`, seeded by the user's name. */
  function AvatarUrl(userName: string): (url: string)
    ensures |url| == |UrlPrefix| + |userName| + |UrlSuffix|
    ensures UrlPrefix <= url && url[|UrlPrefix|..|UrlPrefix| + |userName|] == userName
  {
    UrlPrefix + userName + UrlSuffix
  }

  /** Different names give different URLs. */
  lemma AvatarUrlInjective(a: string, b: string)
    requires AvatarUrl(a) == AvatarUrl(b)
    ensures a == b
  {
    assert |a| == |b|;
  }

  /** `userName.substring(0, 2).toUpperCase()`. */
  function Initials(userName: string): (r: string)
    ensures |r| == if |userName| < 2 then |userName| else 2
    ensures forall i :: 0 <= i < |r| ==> r[i] == UpperChar(userName[i])
  {
    Upper(Take(userName, 2))
  }

  const Placeholder := "/placeholder.svg"

  /** `previewUrl || currentAvatar || "/placeholder.svg"`: an empty string counts as none. */
  function ImageSource(previewUrl: Option<string>, currentAvatar: Option<string>): (src: string)
    ensures src != ""
    ensures previewUrl.Some? && previewUrl.value != "" ==> src == previewUrl.value
    ensures (previewUrl.None? || previewUrl.value == "") && currentAvatar.Some? && currentAvatar.value != ""
            ==> src == currentAvatar.value
    ensures (previewUrl.None? || previewUrl.value == "") && (currentAvatar.None? || currentAvatar.value == "")
            ==> src == Placeholder
  {
    if previewUrl.Some? && previewUrl.value != "" then previewUrl.value
    else if currentAvatar.Some? && currentAvatar.value != "" then currentAvatar.value
    else Placeholder
  }

  const NotAnImageToast := Toast("Erro", "Por favor, selecione apenas arquivos de imagem.", true)
  const TooLargeToast := Toast("Erro", "A imagem deve ter no máximo 5MB.", true)
  const SuccessToast := Toast("Avatar atualizado", "Sua foto de perfil foi atualizada com sucesso!", false)
  const FailureToast := Toast("Erro no upload", "Não foi possível fazer upload da imagem. Tente novamente.", true)

  /** How the second half of the handler ends: normally, with an exception before the parent
      is told (reading the file), or with an exception thrown by the parent's callback. */
  datatype Ending = Completes | ReaderThrows | CallbackThrows

  /** The component's state, with the toasts it showed and the URLs it passed to its
      parent, oldest first. */
  class Picker {
    const userName: string
    var isUploading: bool
    var previewUrl: Option<string>
    var toasts: seq<Toast>
    var changes: seq<string>

    constructor (userName: string)
      ensures this.userName == userName
      ensures !isUploading && previewUrl == None && toasts == [] && changes == []
    {
      this.userName := userName;
      isUploading := false;
      previewUrl := None;
      toasts := [];
      changes := [];
    }

    /** The handler up to its `await`: the checks, and for an accepted file the start of
        the upload. `started` says whether the upload began. */
    method SelectFile(file: Option<File>) returns (started: bool)
      modifies this
      ensures started <==> CheckFile(file) == Accepted
      ensures file == None ==> unchanged(this)
      ensures CheckFile(file) == NotAnImage ==>
                toasts == old(toasts) + [NotAnImageToast] && isUploading == old(isUploading)
      ensures CheckFile(file) == TooLarge ==>
                toasts == old(toasts) + [TooLargeToast] && isUploading == old(isUploading)
      ensures started ==> isUploading && toasts == old(toasts)
      ensures previewUrl == old(previewUrl) && changes == old(changes)
    {
      match CheckFile(file) {
        case NoFile =>
          return false;
        case NotAnImage =>
          toasts := toasts + [NotAnImageToast];
          return false;
        case TooLarge =>
          toasts := toasts + [TooLargeToast];
          return false;
        case Accepted =>
          isUploading := true;
          return true;
      }
    }

    /** The handler after its `await`: the parent gets the avatar URL and a toast reports the
        result; `dataUrl` is what the file reader produced for the preview. On every ending
        the upload is over. */
    method FinishUpload(dataUrl: string, ending: Ending)
      requires isUploading
      modifies this
      ensures !isUploading
      ensures ending == Completes ==>
                changes == old(changes) + [AvatarUrl(userName)]
                && toasts == old(toasts) + [SuccessToast]
                && previewUrl == Some(dataUrl)
      ensures ending == ReaderThrows ==>
                changes == old(changes) && toasts == old(toasts) + [FailureToast] && previewUrl == None
      ensures ending == CallbackThrows ==>
                changes == old(changes) + [AvatarUrl(userName)]
                && toasts == old(toasts) + [FailureToast] && previewUrl == None
    {
      if ending == ReaderThrows {
        toasts := toasts + [FailureToast];
        previewUrl := None;
      } else {
        previewUrl := Some(dataUrl);
        changes := changes + [AvatarUrl(userName)];
        if ending == CallbackThrows {
          toasts := toasts + [FailureToast];
          previewUrl := None;
        } else {
          toasts := toasts + [SuccessToast];
        }
      }
      isUploading := false;
    }
  }

  /** A whole selection of an image within the limit: the parent is told the avatar URL
      exactly once, the picker is not uploading afterwards, and the picture shows the
      preview. */
  method UploadImage(userName: string, file: File, dataUrl: string) returns (changes: seq<string>, uploading: bool, src: string)
    requires ImagePrefix <= file.mimeType && file.size <= MaxBytes && dataUrl != ""
    ensures changes == [AvatarUrl(userName)]
    ensures !uploading
    ensures src == dataUrl
  {
    var picker := new Picker(userName);
    var started := picker.SelectFile(Some(file));
    picker.FinishUpload(dataUrl, Completes);
    changes, uploading := picker.changes, picker.isUploading;
    src := ImageSource(picker.previewUrl, None);
  }
}
