/**
 * The upload endpoint of lib/document-api.ts: a multipart form with the file under `file`, reporting progress
 * in whole percent. The client's answer is an input.
 */
module DocumentApi {
  import opened Base
  import opened JsonValues
  import Types
  import ApiClient

  const FileField := "file"

  /** The upload path: the context id is put in verbatim. */
  function UploadPath(contextId: string): string {
    "/api/documents/upload?context_id=" + contextId
  }

  /** `Math.round(x)` for `x = n / d`, `d > 0`: halves round up. */
  function RoundDiv(n: int, d: int): (r: int)
    requires d > 0
    ensures 2 * d * r <= 2 * n + d < 2 * d * (r + 1)
  {
    (2 * n + d) / (2 * d)
  }

  /** `Math.round((loaded * 100) / (total || 1))`, with byte counts as integers (`total` is 0 when unknown). */
  function Progress(loaded: nat, total: nat): int {
    RoundDiv(loaded * 100, if total != 0 then total else 1)
  }

  lemma MulMonotone(m: int, x: int, y: int)
    requires m >= 0 && x <= y
    ensures m * x <= m * y
  {
    assert m * y - m * x == m * (y - x);
  }

  /** Within a known size, the percentage stays between 0 and 100. */
  lemma ProgressBounds(loaded: nat, total: nat)
    requires total > 0 && loaded <= total
    ensures 0 <= Progress(loaded, total) <= 100
  {
    var m := 2 * total;
    var n := 2 * (loaded * 100) + total;
    var r := Progress(loaded, total);
    assert m * r <= n < m * (r + 1);
    MulMonotone(100, loaded, total);
    assert n < m * 101;
    if r < 0 {
      MulMonotone(m, r + 1, 0);
    }
    if r > 100 {
      MulMonotone(m, 101, r);
    }
  }

  /** Nothing sent is 0 percent and everything sent is 100 percent. */
  lemma ProgressEnds(total: nat)
    requires total > 0
    ensures Progress(0, total) == 0 && Progress(total, total) == 100
  {
    ProgressBounds(0, total);
    ProgressBounds(total, total);
    var m := 2 * total;
    var r0 := Progress(0, total);
    assert m * r0 <= total;
    if r0 > 0 {
      MulMonotone(m, 1, r0);
    }
    var r1 := Progress(total, total);
    assert 2 * (total * 100) + total < m * (r1 + 1);
    if r1 < 100 {
      MulMonotone(m, r1 + 1, 100);
    }
  }

  /** For a fixed size, more bytes sent never shows a smaller percentage. */
  lemma ProgressMonotone(a: nat, b: nat, total: nat)
    requires a <= b
    ensures Progress(a, total) <= Progress(b, total)
  {
    var d := if total != 0 then total else 1;
    var ra := Progress(a, total);
    var rb := Progress(b, total);
    MulMonotone(100, a, b);
    assert 2 * d * ra <= 2 * (a * 100) + d <= 2 * (b * 100) + d < 2 * d * (rb + 1);
    if ra > rb {
      MulMonotone(2 * d, rb + 1, ra);
    }
  }

  /** The upload request, as far as the client sees it. */
  datatype UploadRequest = UploadRequest(path: string, fields: map<string, Types.BrowserFile>)

  function Upload(contextId: string, file: Types.BrowserFile): (r: UploadRequest)
    ensures r.path == UploadPath(contextId) && r.fields == map[FileField := file]
  {
    UploadRequest(UploadPath(contextId), map[FileField := file])
  }
}
