/** msg_t as code that updates messages and counters in place, proved against Messages. */
module MessagePool {
  import opened Common
  import opened Messages

  class Pool {
    var handles: map<Handle, Msg>
    var contents: map<ContentId, Content>
    var next: Handle
    ghost var owns: map<Handle, nat>
    ghost var leaked: map<ContentId, nat>

    ghost function View(): Store
      reads this
    {
      Store(handles, contents, owns, leaked)
    }

    /** The books are in order and handles from `next` on are not in use. */
    ghost predicate Sound()
      reads this
    {
      Valid(View()) && forall h :: h in handles ==> h < next
    }

    constructor ()
      ensures Sound() && View() == EMPTY
    {
      handles, contents, owns, leaked, next := map[], map[], map[], map[], 0;
      new;
      assert forall c :: ContentOk(EMPTY, c);
    }

    /** Takes references off a shared content and releases it when none is left. */
    method Sub(c: ContentId, refs: nat) returns (left: bool)
      requires c in contents
      modifies this`contents
      ensures contents == old(contents)[c := old(contents[c]).(refcnt := old(contents[c]).refcnt - refs)]
      ensures left <==> old(contents[c]).refcnt != refs
    {
      contents := contents[c := contents[c].(refcnt := contents[c].refcnt - refs)];
      left := contents[c].refcnt != 0;
    }

    /** Calls the free function, if there is one, and frees the content. */
    method Release(c: ContentId)
      requires c in contents
      modifies this`contents
      ensures contents == old(contents)[c := Content(old(contents[c]).refcnt, old(contents[c]).hasFfn,
                old(contents[c]).freed + 1, old(contents[c]).ffnCalls + Bit(old(contents[c]).hasFfn))]
    {
      var x := contents[c];
      if x.hasFfn {
        x := x.(ffnCalls := x.ffnCalls + 1);
      }
      contents := contents[c := x.(freed := x.freed + 1)];
    }

    method CloseMsg(h: Handle) returns (ok: bool)
      requires Sound() && h in handles && (Usable(View(), h) ==> Closable(View(), h))
      modifies this`handles, this`contents, this`owns
      ensures ok <==> old(Usable(View(), h))
      ensures Sound() && View() == if ok then Close(old(View()), h) else old(View())
    {
      ghost var s := View();
      var m := handles[h];
      if m.kind.Closed? {
        return false;
      }
      CloseOk(s, h);
      assert Known(s, h);
      if Points(m) {
        if !m.shared {
          Release(m.content);
        } else {
          var left := Sub(m.content, 1);
          if !left {
            Release(m.content);
          }
        }
      }
      handles, owns := handles[h := m.(kind := Closed)], owns[h := 0];
      assert View() == Close(s, h);
      ok := true;
    }

    /** msg_t::init, which forgets what the handle pointed to without closing it. */
    method InitMsg(h: Handle)
      requires Sound() && h < next
      modifies this`handles, this`owns, this`leaked
      ensures Sound() && View() == Init(old(View()), h)
    {
      ghost var s := View();
      InitOk(s, h);
      leaked, owns := Forgotten(s, h), owns[h := 0];
      handles := handles[h := BLANK];
      assert View() == Init(s, h);
    }

    /** init_size, init_data or init_external_storage of a large message. */
    method InitLarge(h: Handle, c: ContentId, kind: Kind, hasFfn: bool)
      requires Sound() && h < next && c !in contents && (kind.Lmsg? || (kind.Zclmsg? && hasFfn))
      modifies this`handles, this`contents, this`owns, this`leaked
      ensures Sound() && View() == InitContent(old(View()), h, c, kind, hasFfn)
    {
      ghost var s := View();
      InitContentOk(s, h, c, kind, hasFfn);
      leaked, owns := Forgotten(s, h), owns[h := 1];
      handles := handles[h := Msg(kind, false, c)];
      contents := contents[c := Content(0, hasFfn, 0, 0)];
      assert View() == InitContent(s, h, c, kind, hasFfn);
    }

    method CopyMsg(dst: Handle, src: Handle) returns (ok: bool)
      requires Sound() && src in handles && dst in handles && src != dst
      requires (Usable(View(), src) ==> Answers(View(), src)) && (Usable(View(), dst) ==> Closable(View(), dst))
      modifies this`handles, this`contents, this`owns
      ensures ok <==> old(Usable(View(), src)) && old(Usable(View(), dst))
      ensures Sound() && View() == if ok then Copy(old(View()), dst, src) else old(View())
    {
      ghost var s := View();
      if handles[src].kind.Closed? {
        return false;
      }
      if handles[dst].kind.Closed? {
        return false;
      }
      CopyOk(s, dst, src);
      ok := CloseMsg(dst);
      ShareMsg(dst, src);
    }

    /** The second half of copy: dst, which is closed, refers to what src refers to. */
    method ShareMsg(dst: Handle, src: Handle)
      requires Sound() && src in handles && Known(View(), src) && dst in handles && Valid(Share(View(), dst, src))
      modifies this`handles, this`contents, this`owns
      ensures Sound() && View() == Share(old(View()), dst, src)
    {
      ghost var s := View();
      var m := handles[src];
      if Points(m) {
        var x := contents[m.content];
        if m.shared {
          x := x.(refcnt := x.refcnt + 1);
        } else {
          m := m.(shared := true);
          handles := handles[src := m];
          x := x.(refcnt := 2);
        }
        contents, owns := contents[m.content := x], owns[dst := 1];
      }
      handles := handles[dst := m];
      assert handles == Share(s, dst, src).handles;
    }

    method MoveMsg(dst: Handle, src: Handle) returns (ok: bool)
      requires Sound() && src in handles && dst in handles && src != dst
      requires Usable(View(), dst) ==> Closable(View(), dst)
      modifies this`handles, this`contents, this`owns
      ensures ok <==> old(Usable(View(), src)) && old(Usable(View(), dst))
      ensures Sound() && View() == if ok then Move(old(View()), dst, src) else old(View())
    {
      ghost var s := View();
      if handles[src].kind.Closed? {
        return false;
      }
      if handles[dst].kind.Closed? {
        return false;
      }
      MoveOk(s, dst, src);
      ok := CloseMsg(dst);
      owns := owns[dst := Owned(View(), src)][src := 0];
      handles := handles[dst := handles[src]];
      handles := handles[src := BLANK];
      assert View() == Move(s, dst, src);
    }

    method AddReferences(h: Handle, refs: nat)
      requires Sound() && Answers(View(), h)
      modifies this`handles, this`contents, this`owns
      ensures Sound() && View() == AddRefs(old(View()), h, refs)
    {
      ghost var s := View();
      AddRefsOk(s, h, refs);
      if refs == 0 {
        return;
      }
      var m := handles[h];
      assert Known(s, h);
      if Points(m) {
        var x := contents[m.content];
        if m.shared {
          x := x.(refcnt := x.refcnt + refs);
        } else {
          x := x.(refcnt := refs + 1);
        }
        contents := contents[m.content := x];
        handles := handles[h := m.(shared := true)];
        owns := owns[h := Owned(s, h) + refs];
      }
      assert View() == AddRefs(s, h, refs);
    }

    method RemoveReferences(h: Handle, refs: nat) returns (left: bool)
      requires Sound() && Usable(View(), h) && (Points(handles[h]) ==> refs <= Owned(View(), h))
      modifies this`handles, this`contents, this`owns
      ensures Sound() && View() == RmRefs(old(View()), h, refs)
      ensures left <==> refs == 0 || (Points(old(handles[h])) && old(handles[h]).shared
                                      && References(old(View()), old(handles[h]).content) > refs)
    {
      ghost var s := View();
      RmRefsOk(s, h, refs);
      if refs == 0 {
        return true;
      }
      var m := handles[h];
      assert Known(s, h);
      if Points(m) { Companions(s, h, m.content); }
      if !Points(m) || !m.shared {
        left := CloseMsg(h);
        return false;
      }
      left := Sub(m.content, refs);
      if !left {
        Release(m.content);
      }
      owns := owns[h := Owned(s, h) - refs];
      assert View() == RmRefs(s, h, refs);
    }

    /** The copy of a message's bytes that goes into a pipe. */
    method TakeCopy(src: Handle) returns (dst: Handle)
      requires Sound() && src in handles
      modifies this`handles, this`owns, this`next
      ensures Sound() && dst == old(next) && next == old(next) + 1 && View() == PlainCopy(old(View()), dst, src)
    {
      ghost var s := View();
      dst := next;
      next := next + 1;
      PlainCopyOk(s, dst, src);
      handles := handles[dst := handles[src]];
      owns := PlainCopy(s, dst, src).owns;
      assert View() == PlainCopy(s, dst, src);
    }
  }
}
