/**
 * Names, URLs and blob paths of uploaded product images.
 *
 * Upload stores a file as `{token}_{name}` in the folder images/products under the web
 * root and records the URL `/images/products/{token}_{name}`; image deletion turns that
 * URL back into a path by trimming the leading slashes and mapping `/` to the directory
 * separator. Paths here are relative to the web root, and the separator is `/`.
 */
module ImagePaths {

  const Separator: char := '/'

  /** The stored file name: the random token, an underscore, then the client's file name. */
  function StoredFileName(token: string, name: string): string
  {
    token + "_" + name
  }

  /** The URL recorded in the image row for a stored file. */
  function ImageUrl(fileName: string): string
  {
    "/images/products/" + fileName
  }

  /** The blob path upload writes: images, products and the file name joined by the separator. */
  function UploadPath(fileName: string): string
  {
    "images" + [Separator] + "products" + [Separator] + fileName
  }

  /** Every leading occurrence of `c` removed. */
  function TrimStart(s: string, c: char): string
  {
    if s != [] && s[0] == c then TrimStart(s[1..], c) else s
  }

  /** TrimStart drops a prefix made only of `c`, and what is left does not begin with `c`. */
  lemma {:induction false} TrimStartSpec(s: string, c: char)
    ensures var r := TrimStart(s, c);
      && |r| <= |s| && r == s[|s| - |r|..]
      && (r == [] || r[0] != c)
      && forall i :: 0 <= i < |s| - |r| ==> s[i] == c
  {
    if s != [] && s[0] == c {
      var t := s[1..];
      TrimStartSpec(t, c);
      var r := TrimStart(t, c);
      assert TrimStart(s, c) == r;
      assert s[|s| - |r|..] == t[|t| - |r|..];
      forall i | 0 <= i < |s| - |r|
        ensures s[i] == c
      {
        if i > 0 {
          assert s[i] == t[i - 1];
        }
      }
    }
  }

  /** Every occurrence of `from` replaced by `to`. */
  function ReplaceChar(s: string, from: char, to: char): string
  {
    if s == [] then [] else [if s[0] == from then to else s[0]] + ReplaceChar(s[1..], from, to)
  }

  /** ReplaceChar changes exactly the occurrences of `from`, and nothing else. */
  lemma {:induction false} ReplaceCharSpec(s: string, from: char, to: char)
    ensures |ReplaceChar(s, from, to)| == |s|
    ensures forall i :: 0 <= i < |s| ==> ReplaceChar(s, from, to)[i] == if s[i] == from then to else s[i]
  {
    if s != [] {
      ReplaceCharSpec(s[1..], from, to);
    }
  }

  /** Replacing a character by itself is the identity. */
  lemma {:induction false} ReplaceCharSame(s: string, c: char)
    ensures ReplaceChar(s, c, c) == s
  {
    if s != [] {
      ReplaceCharSame(s[1..], c);
      assert [s[0]] + s[1..] == s;
    }
  }

  /** The blob path image deletion derives from a recorded URL. */
  function DeletePath(url: string): string
  {
    ReplaceChar(TrimStart(url, '/'), '/', Separator)
  }

  /** Deleting an uploaded image targets exactly the path its upload wrote. */
  lemma DeletePathOfImageUrl(fileName: string)
    ensures DeletePath(ImageUrl(fileName)) == UploadPath(fileName)
  {
    var path := UploadPath(fileName);
    assert ImageUrl(fileName) == ['/'] + path;
    assert ImageUrl(fileName)[1..] == path;
    assert path[0] == 'i';
    assert TrimStart(path, '/') == path;
    assert TrimStart(ImageUrl(fileName), '/') == path;
    ReplaceCharSame(path, '/');
  }

  /** The part of a stored file name before its first underscore. */
  function TokenOf(fileName: string): (t: string)
    ensures |t| <= |fileName| && t == fileName[..|t|]
    ensures '_' !in t
  {
    if fileName == [] || fileName[0] == '_' then [] else [fileName[0]] + TokenOf(fileName[1..])
  }

  /** A token without underscores is recovered from the stored file name. */
  lemma {:induction false} TokenOfStoredFileName(token: string, name: string)
    requires '_' !in token
    ensures TokenOf(StoredFileName(token, name)) == token
  {
    if token != [] {
      assert StoredFileName(token, name)[1..] == StoredFileName(token[1..], name);
      TokenOfStoredFileName(token[1..], name);
    }
  }

  /** For underscore-free tokens, the stored file name determines both token and name. */
  lemma StoredFileNameInjective(t1: string, n1: string, t2: string, n2: string)
    requires '_' !in t1 && '_' !in t2
    requires StoredFileName(t1, n1) == StoredFileName(t2, n2)
    ensures t1 == t2 && n1 == n2
  {
    TokenOfStoredFileName(t1, n1);
    TokenOfStoredFileName(t2, n2);
    var s := StoredFileName(t1, n1);
    assert n1 == s[|t1| + 1..];
    assert n2 == StoredFileName(t2, n2)[|t2| + 1..];
  }

  /** Distinct underscore-free tokens give distinct image URLs, whatever the file names. */
  lemma ImageUrlsDistinct(t1: string, n1: string, t2: string, n2: string)
    requires '_' !in t1 && '_' !in t2 && t1 != t2
    ensures ImageUrl(StoredFileName(t1, n1)) != ImageUrl(StoredFileName(t2, n2))
  {
    var f1, f2 := StoredFileName(t1, n1), StoredFileName(t2, n2);
    if ImageUrl(f1) == ImageUrl(f2) {
      assert f1 == ImageUrl(f1)[|"/images/products/"|..];
      assert f2 == ImageUrl(f2)[|"/images/products/"|..];
      StoredFileNameInjective(t1, n1, t2, n2);
    }
  }

  /** Distinct underscore-free tokens give distinct blob paths, whatever the file names. */
  lemma UploadPathsDistinct(t1: string, n1: string, t2: string, n2: string)
    requires '_' !in t1 && '_' !in t2 && t1 != t2
    ensures UploadPath(StoredFileName(t1, n1)) != UploadPath(StoredFileName(t2, n2))
  {
    var f1, f2 := StoredFileName(t1, n1), StoredFileName(t2, n2);
    if UploadPath(f1) == UploadPath(f2) {
      assert f1 == UploadPath(f1)[|"images/products/"|..];
      assert f2 == UploadPath(f2)[|"images/products/"|..];
      StoredFileNameInjective(t1, n1, t2, n2);
    }
  }
}
