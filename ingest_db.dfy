/**
  The database side of ingest_r2.py: upsert_prompt, upsert_image and the
  transaction in `main` that runs them for prompts 1..300 and the five
  datasets. `gen_random_uuid()` is a parameter: the sequence of ids the
  database draws, one per image statement in execution order.
*/
module IngestDb {
  import opened Wrappers
  import opened Uuids
  import opened Models
  import opened Sequences
  import opened Ingest

  /** An `images` row as the ingestion writes it; the model column holds a dataset label. */
  datatype StoredImage = StoredImage(promptId: string, model: string, url: string)

  /** The two tables the ingestion writes, as the transaction commits them. */
  datatype Tables = Tables(prompts: map<string, Prompt>, images: map<Uuid, StoredImage>)

  predicate SameKey(img: StoredImage, pid: string, model: string)
  {
    img.promptId == pid && img.model == model
  }

  /** uq_images_prompt_model */
  ghost predicate KeyUnique(images: map<Uuid, StoredImage>)
  {
    forall a, b {:trigger SameKey(images[a], images[b].promptId, images[b].model)} ::
      a in images && b in images && SameKey(images[a], images[b].promptId, images[b].model) ==> a == b
  }

  /** The unique key and the foreign key of `images` hold. */
  ghost predicate TablesConsistent(prompts: map<string, Prompt>, images: map<Uuid, StoredImage>)
  {
    KeyUnique(images) && forall id :: id in images ==> images[id].promptId in prompts
  }

  predicate HasKey(images: map<Uuid, StoredImage>, pid: string, model: string)
  {
    exists id :: id in images && SameKey(images[id], pid, model)
  }

  /** `DO UPDATE SET url = EXCLUDED.url` on the row holding the key (pid, model). */
  function SetUrl(images: map<Uuid, StoredImage>, pid: string, model: string, url: string): map<Uuid, StoredImage>
  {
    map k | k in images :: if SameKey(images[k], pid, model) then images[k].(url := url) else images[k]
  }

  /** Some row holds exactly this image. */
  ghost predicate Stored(images: map<Uuid, StoredImage>, pid: string, model: string, url: string)
  {
    exists id :: id in images && images[id] == StoredImage(pid, model, url)
  }

  /** `prompts_map.get(pid, "")` */
  function PromptText(m: map<string, string>, pid: string): string
  {
    if pid in m then m[pid] else ""
  }

  /**
    upsert_prompt: `INSERT ... ON CONFLICT (id) DO UPDATE SET text`. A new
    prompt has no category; an existing one keeps its category.
  */
  function UpsertPromptRow(prompts: map<string, Prompt>, pid: string, text: string): (r: map<string, Prompt>)
    ensures r.Keys == prompts.Keys + {pid}
    ensures r[pid].text == text
    ensures r[pid].category == if pid in prompts then prompts[pid].category else None
    ensures forall p :: p in prompts && p != pid ==> r[p] == prompts[p]
  {
    if pid in prompts then prompts[pid := prompts[pid].(text := text)] else prompts[pid := Prompt(text, None)]
  }

  /** Running upsert_prompt twice with the same text leaves the table as running it once. */
  lemma UpsertPromptIdempotent(p: map<string, Prompt>, pid: string, text: string)
    ensures UpsertPromptRow(UpsertPromptRow(p, pid, text), pid, text) == UpsertPromptRow(p, pid, text)
  {
    var p1 := UpsertPromptRow(p, pid, text);
    assert UpsertPromptRow(p1, pid, text) == p1[pid := p1[pid].(text := text)];
  }

  /** An upsert of a prompt keeps the foreign key from images (no prompt disappears). */
  lemma UpsertPromptConsistent(p: map<string, Prompt>, im: map<Uuid, StoredImage>, pid: string, text: string)
    requires TablesConsistent(p, im)
    ensures TablesConsistent(UpsertPromptRow(p, pid, text), im)
  {
  }

  /**
    upsert_image: `INSERT ... VALUES (gen_random_uuid(), ...) ON CONFLICT
    (prompt_id, model) DO UPDATE SET url`. When the key exists only the
    url changes; otherwise a new row is inserted under the drawn id, which
    fails on a primary-key clash or when the prompt does not exist.
  */
  function UpsertImageRows(p: map<string, Prompt>, im: map<Uuid, StoredImage>, pid: string, model: string, url: string, id: Uuid)
    : Option<map<Uuid, StoredImage>>
  {
    if HasKey(im, pid, model) then Some(SetUrl(im, pid, model, url))
    else if id in im || pid !in p then None
    else Some(im[id := StoredImage(pid, model, url)])
  }

  /**
    The upsert fails only when the key is new and the drawn id is taken or
    the prompt is missing. Otherwise the row now holds the url, rows keep
    their keys, rows with another key are untouched, and a new row appears
    only under the drawn id.
  */
  lemma UpsertImageEffect(p: map<string, Prompt>, im: map<Uuid, StoredImage>, pid: string, model: string, url: string, id: Uuid)
    ensures var r := UpsertImageRows(p, im, pid, model, url, id);
      && (r.None? <==> !HasKey(im, pid, model) && (id in im || pid !in p))
      && (r.Some? ==> Stored(r.value, pid, model, url))
      && (r.Some? ==> forall k :: k in im ==>
            k in r.value && r.value[k].promptId == im[k].promptId && r.value[k].model == im[k].model)
      && (r.Some? ==> forall k :: k in im && !SameKey(im[k], pid, model) ==> r.value[k] == im[k])
      && (r.Some? ==> forall k :: k in r.value && k !in im ==> k == id && r.value[k] == StoredImage(pid, model, url))
      && (r.Some? ==> HasKey(im, pid, model) || pid in p)
  {
    if HasKey(im, pid, model) {
      var k :| k in im && SameKey(im[k], pid, model);
      assert UpsertImageRows(p, im, pid, model, url, id).value[k] == StoredImage(pid, model, url);
    } else if id !in im && pid in p {
      assert UpsertImageRows(p, im, pid, model, url, id).value[id] == StoredImage(pid, model, url);
    }
  }

  /**
    Running upsert_image again for the same prompt, model and url changes
    nothing, whatever id the database draws the second time.
  */
  lemma UpsertImageIdempotent(p: map<string, Prompt>, im: map<Uuid, StoredImage>, pid: string, model: string, url: string,
                              id: Uuid, id': Uuid)
    requires UpsertImageRows(p, im, pid, model, url, id).Some?
    ensures var im' := UpsertImageRows(p, im, pid, model, url, id).value;
      UpsertImageRows(p, im', pid, model, url, id') == Some(im')
  {
    var im' := UpsertImageRows(p, im, pid, model, url, id).value;
    UpsertImageEffect(p, im, pid, model, url, id);
    var k :| k in im' && im'[k] == StoredImage(pid, model, url);
    assert SameKey(im'[k], pid, model);
    assert SetUrl(im', pid, model, url) == im';
  }

  /** An upsert keeps uq_images_prompt_model and the foreign key to prompts. */
  lemma UpsertImageConsistent(p: map<string, Prompt>, im: map<Uuid, StoredImage>, pid: string, model: string, url: string, id: Uuid)
    requires TablesConsistent(p, im)
    requires UpsertImageRows(p, im, pid, model, url, id).Some?
    ensures TablesConsistent(p, UpsertImageRows(p, im, pid, model, url, id).value)
  {
    UpsertImageEffect(p, im, pid, model, url, id);
    var im' := UpsertImageRows(p, im, pid, model, url, id).value;
    if HasKey(im, pid, model) {
      assert im'.Keys == im.Keys;
    } else {
      forall a, b | a in im' && b in im' && SameKey(im'[a], im'[b].promptId, im'[b].model) ensures a == b {
        if a == id || b == id {
          assert a in im ==> !SameKey(im[a], pid, model);
          assert b in im ==> !SameKey(im[b], pid, model);
        }
      }
    }
  }

  /** The position of the id drawn for prompt i (1-based) and dataset d. */
  function DrawIndex(i: nat, d: nat): nat
    requires i >= 1
  {
    (i - 1) * 5 + d
  }

  /**
    What the ingestion relies on in DATASETS: five entries whose model
    labels differ, so that the five upserts of one prompt hit five keys.
  */
  ghost predicate DatasetTable(ds: seq<Dataset>)
  {
    |ds| == NumDatasets && forall a, b :: 0 <= a < b < |ds| ==> ds[a].model != ds[b].model
  }

  lemma DatasetsTable()
    ensures DatasetTable(Datasets)
  {
  }

  // ---------------------------------------------------------------- the values main computes

  /** `str(j)` at index j, for j = 0..300. */
  ghost function PromptIds(): seq<string>
  {
    seq(PromptCount + 1, j requires 0 <= j => Decimal(j))
  }

  /** The URL `main` builds for every image, at the image's position in the draw order. */
  ghost function ImageUrls(base: string): seq<string>
  {
    seq(PromptCount * NumDatasets, k requires 0 <= k < PromptCount * NumDatasets => ImageUrl(base, k % 5, k / 5 + 1))
  }

  /** `pids[j]` is str(j), for every prompt number j. */
  ghost predicate NamedIds(pids: seq<string>)
  {
    |pids| == PromptCount + 1 && forall j {:trigger Decimal(j)} :: 1 <= j <= PromptCount ==> pids[j] == Decimal(j)
  }

  /** Different prompt numbers have different ids. */
  lemma NamedIdsDiffer(pids: seq<string>, a: nat, b: nat)
    requires NamedIds(pids) && 1 <= a <= PromptCount && 1 <= b <= PromptCount && a != b
    ensures pids[a] != pids[b]
  {
    DecimalInjective(a, b);
  }

  /**
    The shape of the tables the loop's invariants are stated over: `pids[j]`
    is prompt j's id, `urls[DrawIndex(j, e)]` the URL of its image from
    dataset `ds[e]`.
  */
  ghost predicate Shape(pids: seq<string>, urls: seq<string>, ds: seq<Dataset>)
  {
    |pids| == PromptCount + 1 && |urls| == PromptCount * NumDatasets && DatasetTable(ds)
  }

  /**
    The tables hold the values `main` computes: str(j), and the URL of
    dataset e's file for prompt j. The invariants treat ids and URLs as
    table entries; each link to the strings is made where the code
    computes the string.
  */
  ghost predicate Computed(pids: seq<string>, urls: seq<string>, base: string, ds: seq<Dataset>)
  {
    && Shape(pids, urls, ds)
    && NamedIds(pids)
    && (forall j, e {:trigger DatasetUrl(base, ds[e], j)} :: 1 <= j <= PromptCount && 0 <= e < NumDatasets ==>
          urls[DrawIndex(j, e)] == DatasetUrl(base, ds[e], j))
  }

  lemma ComputedTables(base: string)
    ensures Computed(PromptIds(), ImageUrls(base), base, Datasets)
  {
    DatasetsTable();
    var pids, urls := PromptIds(), ImageUrls(base);
    forall j, e | 1 <= j <= PromptCount && 0 <= e < NumDatasets
      ensures urls[DrawIndex(j, e)] == DatasetUrl(base, Datasets[e], j)
    {
      var k := DrawIndex(j, e);
      assert k % 5 == e && k / 5 + 1 == j;
    }
  }

  /** The prompt ids pids[1..k]. */
  ghost function Pids(pids: seq<string>, k: nat): set<string>
    requires k < |pids|
  {
    set j | 1 <= j <= k :: pids[j]
  }

  /** An image row with a different key survives an upsert untouched. */
  lemma StoredKept(p: map<string, Prompt>, im: map<Uuid, StoredImage>, pid: string, model: string, url: string, id: Uuid,
                    pid': string, model': string, url': string)
    requires UpsertImageRows(p, im, pid, model, url, id).Some?
    requires Stored(im, pid', model', url') && (pid' != pid || model' != model)
    ensures Stored(UpsertImageRows(p, im, pid, model, url, id).value, pid', model', url')
  {
    UpsertImageEffect(p, im, pid, model, url, id);
    var k :| k in im && im[k] == StoredImage(pid', model', url');
    assert UpsertImageRows(p, im, pid, model, url, id).value[k] == StoredImage(pid', model', url');
  }

  // ---------------------------------------------------------------- the loop invariants of main

  /** Prompt pids[j] is a row whose text is the one loaded for it. */
  ghost predicate PromptLoaded(p: map<string, Prompt>, m: map<string, string>, pids: seq<string>, j: nat)
    requires j < |pids|
  {
    pids[j] in p && p[pids[j]].text == PromptText(m, pids[j])
  }

  /** The image of prompt pids[j] from dataset e is a row, with its URL. */
  ghost predicate ImageStored(im: map<Uuid, StoredImage>, pids: seq<string>, urls: seq<string>, ds: seq<Dataset>, j: nat, e: nat)
    requires 1 <= j < |pids| && e < |ds| && DrawIndex(j, e) < |urls|
  {
    Stored(im, pids[j], ds[e].model, urls[DrawIndex(j, e)])
  }

  /**
    The prompts table after prompts 1..k have been upserted from `m`: their
    texts are the loaded ones, categories are kept (new prompts have none),
    and other prompts are untouched.
  */
  ghost predicate PromptsDone(p0: map<string, Prompt>, p: map<string, Prompt>, m: map<string, string>, pids: seq<string>, k: nat)
    requires k < |pids|
  {
    && p.Keys == p0.Keys + Pids(pids, k)
    && (forall j :: 1 <= j <= k ==> PromptLoaded(p, m, pids, j))
    && (forall q :: q in p0 ==> p[q].category == p0[q].category)
    && (forall q :: q in p && q !in p0 ==> p[q].category == None)
    && (forall q :: q in p0 && q !in Pids(pids, k) ==> p[q] == p0[q])
  }

  /** The row's key is (pids[j], ds[e].model) for some prompt j and dataset e. */
  ghost predicate IngestedKey(img: StoredImage, pids: seq<string>, ds: seq<Dataset>)
    requires |pids| == PromptCount + 1 && |ds| == NumDatasets
  {
    exists j, e :: 1 <= j <= PromptCount && 0 <= e < NumDatasets && SameKey(img, pids[j], ds[e].model)
  }

  /**
    The images table when prompts before i are done and prompt i is done for
    datasets before d: every such image is stored, earlier rows keep their
    key, rows of prompts outside "1".."300" are untouched, and new rows
    carry ids drawn so far and the key of some prompt and dataset.
  */
  ghost predicate ImagesDone(i0: map<Uuid, StoredImage>, im: map<Uuid, StoredImage>,
                             pids: seq<string>, urls: seq<string>, ds: seq<Dataset>, ids: seq<Uuid>, i: nat, d: nat)
    requires 1 <= i && DrawIndex(i, d) <= |ids| == |urls| && |pids| == PromptCount + 1 && |ds| == NumDatasets
    requires |urls| == PromptCount * NumDatasets
  {
    && (forall j, e :: 1 <= j && 0 <= e < NumDatasets && (j < i || (j == i && e < d)) ==>
          ImageStored(im, pids, urls, ds, j, e))
    && (forall id :: id in i0 ==> id in im && im[id].promptId == i0[id].promptId && im[id].model == i0[id].model)
    && (forall id :: id in i0 && i0[id].promptId !in Pids(pids, PromptCount) ==> im[id] == i0[id])
    && (forall id :: id in im && id !in i0 ==> id in ids[..DrawIndex(i, d)])
    && (forall id :: id in im && id !in i0 ==> IngestedKey(im[id], pids, ds))
  }

  lemma {:induction false} PromptStep(p0: map<string, Prompt>, p: map<string, Prompt>, m: map<string, string>, pids: seq<string>, i: nat)
    requires 1 <= i < |pids| && NamedIds(pids) && PromptsDone(p0, p, m, pids, i - 1)
    ensures PromptsDone(p0, UpsertPromptRow(p, pids[i], PromptText(m, pids[i])), m, pids, i)
  {
    assert Pids(pids, i) == Pids(pids, i - 1) + {pids[i]};
    var p' := UpsertPromptRow(p, pids[i], PromptText(m, pids[i]));
    forall j | 1 <= j <= i ensures PromptLoaded(p', m, pids, j) {
      if j < i {
        NamedIdsDiffer(pids, j, i);
        assert PromptLoaded(p, m, pids, j);
      }
    }
  }

  lemma ImageStepStored(p: map<string, Prompt>, im: map<Uuid, StoredImage>, pids: seq<string>, urls: seq<string>, ds: seq<Dataset>,
                         i: nat, d: nat, id: Uuid)
    requires 1 <= i <= PromptCount && d < NumDatasets && Shape(pids, urls, ds) && NamedIds(pids)
    requires forall j, e :: 1 <= j && 0 <= e < NumDatasets && (j < i || (j == i && e < d)) ==>
      ImageStored(im, pids, urls, ds, j, e)
    requires UpsertImageRows(p, im, pids[i], ds[d].model, urls[DrawIndex(i, d)], id).Some?
    ensures var im' := UpsertImageRows(p, im, pids[i], ds[d].model, urls[DrawIndex(i, d)], id).value;
      forall j, e :: 1 <= j && 0 <= e < NumDatasets && (j < i || (j == i && e < d + 1)) ==>
        ImageStored(im', pids, urls, ds, j, e)
  {
    var pid, model, url := pids[i], ds[d].model, urls[DrawIndex(i, d)];
    UpsertImageEffect(p, im, pid, model, url, id);
    forall j, e | 1 <= j && 0 <= e < NumDatasets && (j < i || (j == i && e < d))
      ensures ImageStored(UpsertImageRows(p, im, pid, model, url, id).value, pids, urls, ds, j, e)
    {
      if j < i {
        NamedIdsDiffer(pids, j, i);
      } else {
        assert ds[e].model != ds[d].model;
      }
      assert ImageStored(im, pids, urls, ds, j, e);
      StoredKept(p, im, pid, model, url, id, pids[j], ds[e].model, urls[DrawIndex(j, e)]);
    }
  }

  lemma {:induction false} ImageStep(i0: map<Uuid, StoredImage>, p: map<string, Prompt>, im: map<Uuid, StoredImage>,
                                     pids: seq<string>, urls: seq<string>, ds: seq<Dataset>, ids: seq<Uuid>, i: nat, d: nat)
    requires 1 <= i <= PromptCount && d < NumDatasets && |ids| == PromptCount * NumDatasets && Shape(pids, urls, ds)
    requires NamedIds(pids) && ImagesDone(i0, im, pids, urls, ds, ids, i, d)
    requires UpsertImageRows(p, im, pids[i], ds[d].model, urls[DrawIndex(i, d)], ids[DrawIndex(i, d)]).Some?
    ensures ImagesDone(i0, UpsertImageRows(p, im, pids[i], ds[d].model, urls[DrawIndex(i, d)], ids[DrawIndex(i, d)]).value,
                       pids, urls, ds, ids, i, d + 1)
  {
    var pid, model, url, id := pids[i], ds[d].model, urls[DrawIndex(i, d)], ids[DrawIndex(i, d)];
    ImageStepStored(p, im, pids, urls, ds, i, d, id);
    UpsertImageEffect(p, im, pid, model, url, id);
    assert pid in Pids(pids, PromptCount);
    assert DrawIndex(i, d + 1) == DrawIndex(i, d) + 1;
    TakeOneMore(ids, DrawIndex(i, d));
  }

  lemma TakeOneMore<T>(s: seq<T>, n: nat)
    requires n < |s|
    ensures forall x :: x in s[..n + 1] <==> x in s[..n] || x == s[n]
  {
    assert s[..n + 1] == s[..n] + [s[n]];
  }

  /** With ids that are new and distinct, an upsert of prompt i's image cannot fail. */
  lemma ImageStepFresh(i0: map<Uuid, StoredImage>, p: map<string, Prompt>, im: map<Uuid, StoredImage>,
                       pids: seq<string>, urls: seq<string>, ds: seq<Dataset>, ids: seq<Uuid>, i: nat, d: nat)
    requires 1 <= i <= PromptCount && d < NumDatasets && |ids| == PromptCount * NumDatasets && Shape(pids, urls, ds)
    requires ImagesDone(i0, im, pids, urls, ds, ids, i, d) && pids[i] in p
    requires FreshIds(ids, i0)
    ensures UpsertImageRows(p, im, pids[i], ds[d].model, urls[DrawIndex(i, d)], ids[DrawIndex(i, d)]).Some?
  {
    UpsertImageEffect(p, im, pids[i], ds[d].model, urls[DrawIndex(i, d)], ids[DrawIndex(i, d)]);
  }

  lemma NextPrompt(i0: map<Uuid, StoredImage>, im: map<Uuid, StoredImage>, pids: seq<string>, urls: seq<string>, ds: seq<Dataset>,
                   ids: seq<Uuid>, i: nat)
    requires 1 <= i <= PromptCount && |ids| == PromptCount * NumDatasets && Shape(pids, urls, ds)
    requires ImagesDone(i0, im, pids, urls, ds, ids, i, NumDatasets)
    ensures ImagesDone(i0, im, pids, urls, ds, ids, i + 1, 0)
  {
  }

  /**
    The images table after the whole run: one row for every prompt
    pids[1..300] and dataset, with its URL; rows present before keep their
    id and key, rows of other prompts are untouched, and every new row
    carries a drawn id and the key of some prompt and dataset.
  */
  ghost predicate ImagesIngested(i0: map<Uuid, StoredImage>, im: map<Uuid, StoredImage>,
                                 pids: seq<string>, urls: seq<string>, ds: seq<Dataset>, ids: seq<Uuid>)
  {
    && Shape(pids, urls, ds)
    && (forall j, e :: 1 <= j <= PromptCount && 0 <= e < NumDatasets ==> ImageStored(im, pids, urls, ds, j, e))
    && (forall id :: id in i0 ==> id in im && im[id].promptId == i0[id].promptId && im[id].model == i0[id].model)
    && (forall id :: id in i0 && i0[id].promptId !in Pids(pids, PromptCount) ==> im[id] == i0[id])
    && (forall id :: id in im && id !in i0 ==> id in ids)
    && (forall id :: id in im && id !in i0 ==> IngestedKey(im[id], pids, ds))
  }

  /** After the last prompt the loop invariant is the promised end state. */
  lemma ImagesFinished(i0: map<Uuid, StoredImage>, im: map<Uuid, StoredImage>, pids: seq<string>, urls: seq<string>, ds: seq<Dataset>,
                       ids: seq<Uuid>)
    requires |ids| == PromptCount * NumDatasets && Shape(pids, urls, ds)
    requires ImagesDone(i0, im, pids, urls, ds, ids, PromptCount + 1, 0)
    ensures ImagesIngested(i0, im, pids, urls, ds, ids)
  {
    assert ids[..DrawIndex(PromptCount + 1, 0)] == ids;
  }

  /** The state of the transaction after `done` prompts and all their images. */
  ghost predicate Progress(p0: map<string, Prompt>, i0: map<Uuid, StoredImage>, p: map<string, Prompt>, im: map<Uuid, StoredImage>,
                           pids: seq<string>, urls: seq<string>, ds: seq<Dataset>, m: map<string, string>, ids: seq<Uuid>, done: nat)
    requires done <= PromptCount && |ids| == PromptCount * NumDatasets && Shape(pids, urls, ds)
  {
    PromptsDone(p0, p, m, pids, done) && ImagesDone(i0, im, pids, urls, ds, ids, done + 1, 0)
  }

  /** Before the first prompt the invariant holds trivially. */
  lemma IngestStart(p0: map<string, Prompt>, i0: map<Uuid, StoredImage>, pids: seq<string>, urls: seq<string>, ds: seq<Dataset>,
                    m: map<string, string>, ids: seq<Uuid>)
    requires |ids| == PromptCount * NumDatasets && Shape(pids, urls, ds)
    ensures Progress(p0, i0, p0, i0, pids, urls, ds, m, ids, 0)
  {
    assert Pids(pids, 0) == {};
  }

  /** The drawn ids are distinct and none is already an image's id. */
  ghost predicate FreshIds(ids: seq<Uuid>, i0: map<Uuid, StoredImage>)
  {
    NoDuplicates(ids) && forall n :: 0 <= n < |ids| ==> ids[n] !in i0
  }

  // ---------------------------------------------------------------- the transaction as a function

  /**
    The inner loop of `main` for prompt i, from dataset d on: upsert the
    image of each remaining dataset, with its URL and the id drawn for it.
    The images table afterwards, or None at the first statement that fails.
  */
  ghost function StoreFrom(p: map<string, Prompt>, im: map<Uuid, StoredImage>, pids: seq<string>, urls: seq<string>,
                           ds: seq<Dataset>, ids: seq<Uuid>, i: nat, d: nat): Option<map<Uuid, StoredImage>>
    requires 1 <= i <= PromptCount && d <= NumDatasets && Shape(pids, urls, ds) && |ids| == PromptCount * NumDatasets
    decreases |ids| - DrawIndex(i, d)  // the ids still to be drawn
  {
    if d == NumDatasets then Some(im)
    else match UpsertImageRows(p, im, pids[i], ds[d].model, urls[DrawIndex(i, d)], ids[DrawIndex(i, d)])
      case None => None
      case Some(im') => StoreFrom(p, im', pids, urls, ds, ids, i, d + 1)
  }

  /**
    The outer loop of `main` after `done` prompts: upsert the next prompt
    with its loaded text, then its images, and go on. None at the first
    statement that fails.
  */
  ghost function IngestFrom(p: map<string, Prompt>, im: map<Uuid, StoredImage>, pids: seq<string>, urls: seq<string>,
                            ds: seq<Dataset>, m: map<string, string>, ids: seq<Uuid>, done: nat): Option<Tables>
    requires done <= PromptCount && Shape(pids, urls, ds) && |ids| == PromptCount * NumDatasets
    decreases |ids| - DrawIndex(done + 1, 0)  // the ids still to be drawn
  {
    if done == PromptCount then Some(Tables(p, im))
    else
      var pid := pids[done + 1];
      var p' := UpsertPromptRow(p, pid, PromptText(m, pid));
      match StoreFrom(p', im, pids, urls, ds, ids, done + 1, 0)
      case None => None
      case Some(im') => IngestFrom(p', im', pids, urls, ds, m, ids, done + 1)
  }

  /**
    The tables the whole transaction of `main` commits, or None when a
    statement fails: prompt ids str(1)..str(300) and the URLs `build_url`
    gives for the entries of DATASETS.
  */
  ghost function IngestResult(p: map<string, Prompt>, im: map<Uuid, StoredImage>, base: string, m: map<string, string>,
                              ids: seq<Uuid>): Option<Tables>
    requires |ids| == PromptCount * NumDatasets
  {
    ComputedTables(base);
    IngestFrom(p, im, PromptIds(), ImageUrls(base), Datasets, m, ids, 0)
  }

  /** The inner loop keeps the schema's constraints. */
  lemma {:induction false} StoreFromKeeps(p: map<string, Prompt>, im: map<Uuid, StoredImage>, pids: seq<string>,
                                          urls: seq<string>, ds: seq<Dataset>, ids: seq<Uuid>, i: nat, d: nat)
    requires 1 <= i <= PromptCount && d <= NumDatasets && |ids| == PromptCount * NumDatasets && Shape(pids, urls, ds)
    requires TablesConsistent(p, im)
    ensures var r := StoreFrom(p, im, pids, urls, ds, ids, i, d);
      r.Some? ==> TablesConsistent(p, r.value)
    decreases NumDatasets - d
  {
    if d < NumDatasets {
      var pid, model, url, id := pids[i], ds[d].model, urls[DrawIndex(i, d)], ids[DrawIndex(i, d)];
      match UpsertImageRows(p, im, pid, model, url, id)
      case None =>
      case Some(im') =>
        UpsertImageConsistent(p, im, pid, model, url, id);
        StoreFromKeeps(p, im', pids, urls, ds, ids, i, d + 1);
    }
  }

  /**
    The inner loop stores the image of prompt i from every dataset, and
    cannot fail when the drawn ids are fresh and the prompt exists.
  */
  lemma {:induction false} StoreFromDone(i0: map<Uuid, StoredImage>, p: map<string, Prompt>, im: map<Uuid, StoredImage>,
                                         pids: seq<string>, urls: seq<string>, ds: seq<Dataset>, ids: seq<Uuid>, i: nat, d: nat)
    requires 1 <= i <= PromptCount && d <= NumDatasets && |ids| == PromptCount * NumDatasets
    requires Shape(pids, urls, ds) && NamedIds(pids) && ImagesDone(i0, im, pids, urls, ds, ids, i, d)
    ensures var r := StoreFrom(p, im, pids, urls, ds, ids, i, d);
      && (FreshIds(ids, i0) && pids[i] in p ==> r.Some?)
      && (r.Some? ==> ImagesDone(i0, r.value, pids, urls, ds, ids, i + 1, 0))
    decreases NumDatasets - d
  {
    if d == NumDatasets {
      NextPrompt(i0, im, pids, urls, ds, ids, i);
    } else {
      var pid, model, url, id := pids[i], ds[d].model, urls[DrawIndex(i, d)], ids[DrawIndex(i, d)];
      if FreshIds(ids, i0) && pid in p {
        ImageStepFresh(i0, p, im, pids, urls, ds, ids, i, d);
      }
      match UpsertImageRows(p, im, pid, model, url, id)
      case None =>
      case Some(im') =>
        ImageStep(i0, p, im, pids, urls, ds, ids, i, d);
        StoreFromDone(i0, p, im', pids, urls, ds, ids, i, d + 1);
    }
  }

  /** The outer loop keeps the schema's constraints. */
  lemma {:induction false} IngestFromKeeps(p: map<string, Prompt>, im: map<Uuid, StoredImage>, pids: seq<string>,
                                           urls: seq<string>, ds: seq<Dataset>, m: map<string, string>, ids: seq<Uuid>, done: nat)
    requires done <= PromptCount && |ids| == PromptCount * NumDatasets && Shape(pids, urls, ds)
    requires TablesConsistent(p, im)
    ensures var r := IngestFrom(p, im, pids, urls, ds, m, ids, done);
      r.Some? ==> TablesConsistent(r.value.prompts, r.value.images)
    decreases PromptCount - done
  {
    if done < PromptCount {
      var pid := pids[done + 1];
      var p' := UpsertPromptRow(p, pid, PromptText(m, pid));
      UpsertPromptConsistent(p, im, pid, PromptText(m, pid));
      StoreFromKeeps(p', im, pids, urls, ds, ids, done + 1, 0);
      match StoreFrom(p', im, pids, urls, ds, ids, done + 1, 0)
      case None =>
      case Some(im') =>
        IngestFromKeeps(p', im', pids, urls, ds, m, ids, done + 1);
    }
  }

  /** From `done` prompts on, the outer loop reaches its end state, and cannot fail with fresh drawn ids. */
  lemma {:induction false} IngestFromDone(p0: map<string, Prompt>, i0: map<Uuid, StoredImage>,
                                          p: map<string, Prompt>, im: map<Uuid, StoredImage>,
                                          pids: seq<string>, urls: seq<string>, ds: seq<Dataset>, m: map<string, string>,
                                          ids: seq<Uuid>, done: nat)
    requires done <= PromptCount && |ids| == PromptCount * NumDatasets && Shape(pids, urls, ds) && NamedIds(pids)
    requires Progress(p0, i0, p, im, pids, urls, ds, m, ids, done)
    ensures var r := IngestFrom(p, im, pids, urls, ds, m, ids, done);
      && (FreshIds(ids, i0) ==> r.Some?)
      && (r.Some? ==> Progress(p0, i0, r.value.prompts, r.value.images, pids, urls, ds, m, ids, PromptCount))
    decreases PromptCount - done
  {
    if done < PromptCount {
      var i := done + 1;
      var pid := pids[i];
      PromptStep(p0, p, m, pids, i);
      var p' := UpsertPromptRow(p, pid, PromptText(m, pid));
      StoreFromDone(i0, p', im, pids, urls, ds, ids, i, 0);
      match StoreFrom(p', im, pids, urls, ds, ids, i, 0)
      case None =>
      case Some(im') =>
        IngestFromDone(p0, i0, p', im', pids, urls, ds, m, ids, done + 1);
    }
  }

  /**
    What the transaction of `main` guarantees: with fresh, distinct drawn
    ids it commits; when it commits, the schema's constraints hold, prompts
    "1".."300" carry their loaded texts (categories kept, other prompts
    untouched), and every prompt has one image per dataset with its URL
    (existing rows keep their ids and keys, rows of other prompts are
    untouched, new rows carry drawn ids).
  */
  lemma IngestEffect(p: map<string, Prompt>, im: map<Uuid, StoredImage>, base: string, m: map<string, string>, ids: seq<Uuid>)
    requires TablesConsistent(p, im) && |ids| == PromptCount * NumDatasets
    ensures var r := IngestResult(p, im, base, m, ids);
      && (FreshIds(ids, im) ==> r.Some?)
      && (r.Some? ==> TablesConsistent(r.value.prompts, r.value.images))
      && (r.Some? ==> PromptsDone(p, r.value.prompts, m, PromptIds(), PromptCount))
      && (r.Some? ==> ImagesIngested(im, r.value.images, PromptIds(), ImageUrls(base), Datasets, ids))
  {
    var pids, urls := PromptIds(), ImageUrls(base);
    ComputedTables(base);
    IngestStart(p, im, pids, urls, Datasets, m, ids);
    IngestFromKeeps(p, im, pids, urls, Datasets, m, ids, 0);
    IngestFromDone(p, im, p, im, pids, urls, Datasets, m, ids, 0);
    if IngestResult(p, im, base, m, ids).Some? {
      ImagesFinished(im, IngestResult(p, im, base, m, ids).value.images, pids, urls, Datasets, ids);
    }
  }

  /** Under uq_images_prompt_model a stored image is the only row with its key. */
  lemma StoredOnly(p: map<string, Prompt>, images: map<Uuid, StoredImage>, pid: string, model: string, url: string)
    requires TablesConsistent(p, images) && Stored(images, pid, model, url)
    ensures exists id ::
              && id in images && images[id] == StoredImage(pid, model, url)
              && forall id' :: id' in images && SameKey(images[id'], pid, model) ==> id' == id
  {
    var id :| id in images && images[id] == StoredImage(pid, model, url);
    forall id' | id' in images && SameKey(images[id'], pid, model) ensures id' == id {
      assert SameKey(images[id'], images[id].promptId, images[id].model);
    }
  }

  /**
    After a committed run every prompt "1".."300" has exactly one image row
    per dataset model, and that row holds the URL built for it.
  */
  lemma IngestOneImagePerKey(p: map<string, Prompt>, im: map<Uuid, StoredImage>, base: string, m: map<string, string>,
                             ids: seq<Uuid>, j: nat, e: nat)
    requires TablesConsistent(p, im) && |ids| == PromptCount * NumDatasets
    requires IngestResult(p, im, base, m, ids).Some? && 1 <= j <= PromptCount && e < NumDatasets
    ensures var r := IngestResult(p, im, base, m, ids).value;
      exists id ::
        && id in r.images && r.images[id] == StoredImage(Decimal(j), Datasets[e].model, DatasetUrl(base, Datasets[e], j))
        && forall id' :: id' in r.images && SameKey(r.images[id'], Decimal(j), Datasets[e].model) ==> id' == id
  {
    var r := IngestResult(p, im, base, m, ids).value;
    IngestEffect(p, im, base, m, ids);
    ComputedTables(base);
    var pids, urls := PromptIds(), ImageUrls(base);
    assert ImageStored(r.images, pids, urls, Datasets, j, e);
    assert pids[j] == Decimal(j) && urls[DrawIndex(j, e)] == DatasetUrl(base, Datasets[e], j);
    StoredOnly(r.prompts, r.images, Decimal(j), Datasets[e].model, DatasetUrl(base, Datasets[e], j));
  }

  /** The key of the image for prompt n / 5 + 1 and dataset n % 5, for each draw position n. */
  ghost function IngestKeys(pids: seq<string>, ds: seq<Dataset>): (keys: seq<(string, string)>)
    requires |pids| == PromptCount + 1 && |ds| == NumDatasets
    ensures |keys| == PromptCount * NumDatasets
  {
    seq(PromptCount * NumDatasets, n requires 0 <= n < PromptCount * NumDatasets => (pids[n / 5 + 1], ds[n % 5].model))
  }

  /** The key of prompt j and dataset e sits at its draw position. */
  lemma IngestKeyAt(pids: seq<string>, ds: seq<Dataset>, j: nat, e: nat)
    requires |pids| == PromptCount + 1 && |ds| == NumDatasets && 1 <= j <= PromptCount && e < NumDatasets
    ensures DrawIndex(j, e) < PromptCount * NumDatasets
    ensures IngestKeys(pids, ds)[DrawIndex(j, e)] == (pids[j], ds[e].model)
  {
    var n := DrawIndex(j, e);
    assert n / 5 + 1 == j && n % 5 == e;
  }

  /** Different draw positions are different (prompt, model) keys. */
  lemma IngestKeysDistinct(pids: seq<string>, ds: seq<Dataset>)
    requires NamedIds(pids) && DatasetTable(ds)
    ensures NoDuplicates(IngestKeys(pids, ds))
  {
    var keys := IngestKeys(pids, ds);
    forall a, b | 0 <= a < b < |keys| ensures keys[a] != keys[b] {
      if a / 5 != b / 5 {
        NamedIdsDiffer(pids, a / 5 + 1, b / 5 + 1);
      } else {
        assert ds[a % 5].model != ds[b % 5].model;
      }
    }
  }

  /** The (prompt_id, model) key of row `id`. */
  function RowKey(images: map<Uuid, StoredImage>, id: Uuid): (string, string)
  {
    if id in images then (images[id].promptId, images[id].model) else ("", "")
  }

  /** Under uq_images_prompt_model different rows have different keys. */
  lemma RowKeysInjective(images: map<Uuid, StoredImage>)
    requires KeyUnique(images)
    ensures forall a, b :: a in images && b in images && RowKey(images, a) == RowKey(images, b) ==> a == b
  {
    forall a, b | a in images && b in images && RowKey(images, a) == RowKey(images, b) ensures a == b {
      assert SameKey(images[a], images[b].promptId, images[b].model);
    }
  }

  lemma RowKeysIngested(images: map<Uuid, StoredImage>, pids: seq<string>, ds: seq<Dataset>)
    requires |pids| == PromptCount + 1 && |ds| == NumDatasets
    requires forall id :: id in images ==> IngestedKey(images[id], pids, ds)
    ensures forall id :: id in images ==> RowKey(images, id) in IngestKeys(pids, ds)
  {
    forall id | id in images ensures RowKey(images, id) in IngestKeys(pids, ds) {
      var j, e :| 1 <= j <= PromptCount && 0 <= e < NumDatasets && SameKey(images[id], pids[j], ds[e].model);
      IngestKeyAt(pids, ds, j, e);
    }
  }

  lemma IngestKeysStored(images: map<Uuid, StoredImage>, pids: seq<string>, urls: seq<string>, ds: seq<Dataset>)
    requires Shape(pids, urls, ds)
    requires forall j, e :: 1 <= j <= PromptCount && 0 <= e < NumDatasets ==> ImageStored(images, pids, urls, ds, j, e)
    ensures forall k :: k in IngestKeys(pids, ds) ==> exists id :: id in images && RowKey(images, id) == k
  {
    var keys := IngestKeys(pids, ds);
    forall k | k in keys ensures exists id :: id in images && RowKey(images, id) == k {
      var n :| 0 <= n < |keys| && keys[n] == k;
      var j, e := n / 5 + 1, n % 5;
      assert ImageStored(images, pids, urls, ds, j, e);
      var id :| id in images && images[id] == StoredImage(pids[j], ds[e].model, urls[DrawIndex(j, e)]);
      assert RowKey(images, id) == k;
    }
  }

  /**
    A table whose rows hold pairwise different keys, each the key of some
    prompt 1..300 and dataset, and that stores an image for every such key,
    has one row per key: 1500 rows.
  */
  lemma ImagesCount(images: map<Uuid, StoredImage>, pids: seq<string>, urls: seq<string>, ds: seq<Dataset>)
    requires Shape(pids, urls, ds) && NamedIds(pids) && KeyUnique(images)
    requires forall id :: id in images ==> IngestedKey(images[id], pids, ds)
    requires forall j, e :: 1 <= j <= PromptCount && 0 <= e < NumDatasets ==> ImageStored(images, pids, urls, ds, j, e)
    ensures |images| == PromptCount * NumDatasets
  {
    var keys := IngestKeys(pids, ds);
    IngestKeysDistinct(pids, ds);
    DistinctSize(keys);
    RowKeysInjective(images);
    RowKeysIngested(images, pids, ds);
    IngestKeysStored(images, pids, urls, ds);
    InjectiveImage(images.Keys, id => RowKey(images, id), set k | k in keys);
  }

  /**
    Run on an empty images table, a committed ingestion leaves exactly
    300 * 5 = 1500 image rows, one per prompt and model.
  */
  lemma IngestCountFromEmpty(p: map<string, Prompt>, base: string, m: map<string, string>, ids: seq<Uuid>)
    requires |ids| == PromptCount * NumDatasets && IngestResult(p, map[], base, m, ids).Some?
    ensures |IngestResult(p, map[], base, m, ids).value.images| == PromptCount * NumDatasets
  {
    var r := IngestResult(p, map[], base, m, ids).value;
    assert TablesConsistent(p, map[]);
    IngestEffect(p, map[], base, m, ids);
    ComputedTables(base);
    ImagesCount(r.images, PromptIds(), ImageUrls(base), Datasets);
  }

  // ---------------------------------------------------------------- the database

  /** The `prompts` and `images` tables as the ingestion sees them. */
  class IngestDatabase {
    var prompts: map<string, Prompt>
    var images: map<Uuid, StoredImage>

    ghost predicate Valid()
      reads this
    {
      TablesConsistent(prompts, images)
    }

    constructor(prompts: map<string, Prompt>, images: map<Uuid, StoredImage>)
      ensures this.prompts == prompts && this.images == images
    {
      this.prompts := prompts;
      this.images := images;
    }

    /** upsert_prompt */
    method UpsertPrompt(pid: string, text: string)
      modifies this`prompts
      ensures prompts == UpsertPromptRow(old(prompts), pid, text)
      ensures old(Valid()) ==> Valid()
    {
      if pid in prompts {
        prompts := prompts[pid := prompts[pid].(text := text)];
      } else {
        prompts := prompts[pid := Prompt(text, None)];
      }
    }

    /** upsert_image, with `id` the value of `gen_random_uuid()`; false when the statement fails. */
    method UpsertImage(pid: string, model: string, url: string, id: Uuid) returns (ok: bool)
      modifies this`images
      ensures UpsertImageRows(prompts, old(images), pid, model, url, id) == if ok then Some(images) else None
      ensures !ok ==> images == old(images)
      ensures old(Valid()) ==> Valid()
    {
      ghost var im := images;
      if HasKey(images, pid, model) {
        images := SetUrl(images, pid, model, url);
        ok := true;
      } else if id in images || pid !in prompts {
        ok := false;
        return;
      } else {
        images := images[id := StoredImage(pid, model, url)];
        ok := true;
      }
      if TablesConsistent(prompts, im) {
        UpsertImageConsistent(prompts, im, pid, model, url, id);
      }
    }

    /**
      The inner loop of `main` for prompt i: the image of every dataset,
      stopping at the first failure (the caller then rolls back).
    */
    method StoreImages(i: nat, base: string, ds: seq<Dataset>, ids: seq<Uuid>, ghost pids: seq<string>, ghost urls: seq<string>)
      returns (ok: bool)
      requires 1 <= i <= PromptCount && |ids| == PromptCount * NumDatasets && Computed(pids, urls, base, ds)
      modifies this`images
      ensures StoreFrom(prompts, old(images), pids, urls, ds, ids, i, 0) == if ok then Some(images) else None
    {
      var pid := Decimal(i);
      assert pid == pids[i];
      var d := 0;
      while d < NumDatasets
        invariant d <= NumDatasets
        invariant StoreFrom(prompts, images, pids, urls, ds, ids, i, d) == StoreFrom(prompts, old(images), pids, urls, ds, ids, i, 0)
      {
        var url := DatasetUrl(base, ds[d], i);
        assert url == urls[DrawIndex(i, d)];
        ok := UpsertImage(pid, ds[d].model, url, ids[DrawIndex(i, d)]);
        if !ok {
          return;
        }
        d := d + 1;
      }
      ok := true;
    }

    /** The outer loop of `main`, stopping at the first failing statement (the caller then rolls back). */
    method IngestPrompts(base: string, ds: seq<Dataset>, m: map<string, string>, ids: seq<Uuid>,
                         ghost pids: seq<string>, ghost urls: seq<string>) returns (ok: bool)
      requires |ids| == PromptCount * NumDatasets && Computed(pids, urls, base, ds)
      modifies this
      ensures IngestFrom(old(prompts), old(images), pids, urls, ds, m, ids, 0) == if ok then Some(Tables(prompts, images)) else None
    {
      var done := 0;
      while done < PromptCount
        invariant done <= PromptCount
        invariant IngestFrom(prompts, images, pids, urls, ds, m, ids, done)
               == IngestFrom(old(prompts), old(images), pids, urls, ds, m, ids, 0)
      {
        var pid := Decimal(done + 1);
        assert pid == pids[done + 1];
        UpsertPrompt(pid, PromptText(m, pid));
        ok := StoreImages(done + 1, base, ds, ids, pids, urls);
        if !ok {
          return;
        }
        done := done + 1;
      }
      ok := true;
    }

    /**
      The transaction of `main`: for i = 1..300, upsert prompt str(i) with
      `prompts_map.get(str(i), "")`, then the image of each dataset. `ids`
      are the 1500 values `gen_random_uuid()` yields, in order. A failing
      statement rolls the whole transaction back.
    */
    method Ingest(base: string, m: map<string, string>, ids: seq<Uuid>) returns (ok: bool)
      requires Valid() && |ids| == PromptCount * NumDatasets
      modifies this
      ensures Valid()
      ensures IngestResult(old(prompts), old(images), base, m, ids) == if ok then Some(Tables(prompts, images)) else None
      ensures !ok ==> prompts == old(prompts) && images == old(images)
      ensures FreshIds(ids, old(images)) ==> ok
    {
      ghost var pids, urls := PromptIds(), ImageUrls(base);
      ComputedTables(base);
      var p0, i0 := prompts, images;
      IngestEffect(p0, i0, base, m, ids);
      ok := IngestPrompts(base, Datasets, m, ids, pids, urls);
      if !ok {
        prompts, images := p0, i0;
      }
    }
  }
}
